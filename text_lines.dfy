/** A line view of generated text, used to state the shape of the preprocessor blocks the header is made of. */
module TextLines {

  /** Position of the first newline character of `s`, or |s| when there is none. */
  function NewlineIndex(s: string): (k: nat)
    ensures k <= |s|
  {
    if s == [] then 0 else if s[0] == '\n' then 0 else 1 + NewlineIndex(s[1..])
  }

  /** The first newline is at the index found, and none comes before it. */
  lemma {:induction false} NewlineIndexSpec(s: string)
    ensures NewlineIndex(s) < |s| ==> s[NewlineIndex(s)] == '\n'
    ensures forall i | 0 <= i < NewlineIndex(s) :: s[i] != '\n'
    decreases |s|
  {
    if s != [] && s[0] != '\n' {
      NewlineIndexSpec(s[1..]);
    }
  }

  /** The lines of a text: the pieces between newline characters; a final newline ends the last line. */
  function Lines(s: string): seq<string>
    decreases |s|
  {
    if s == [] then []
    else
      var k := NewlineIndex(s);
      if k == |s| then [s] else [s[..k]] + Lines(s[k + 1..])
  }

  /** Text that is empty or ends with a newline: appending to it starts a new line. */
  predicate LineTerminated(s: string) {
    s == [] || s[|s| - 1] == '\n'
  }

  /** A single line followed by its newline is one line. */
  lemma LinesOfLine(l: string)
    requires '\n' !in l
    ensures Lines(l + "\n") == [l]
  {
    var s := l + "\n";
    assert forall i | 0 <= i < |l| :: s[i] == l[i] && l[i] in l;
    var k := NewlineIndex(s);
    NewlineIndexSpec(s);
    assert s[|l|] == '\n';
    assert k == |l|;
    assert s[..|l|] == l && s[|l| + 1..] == [];
  }

  /** Appending to line-terminated text appends lines. */
  lemma {:induction false} LinesAppend(a: string, b: string)
    requires LineTerminated(a)
    ensures Lines(a + b) == Lines(a) + Lines(b)
    decreases |a|
  {
    if a == [] {
      assert a + b == b;
    } else {
      var k := NewlineIndex(a);
      NewlineIndexSpec(a);
      assert k < |a|;
      var ab := a + b;
      var k' := NewlineIndex(ab);
      NewlineIndexSpec(ab);
      assert ab[k] == '\n';
      assert forall i | 0 <= i < k :: ab[i] == a[i];
      assert k' == k;
      assert ab[..k] == a[..k];
      assert ab[k + 1..] == a[k + 1..] + b;
      LinesAppend(a[k + 1..], b);
    }
  }

  /** Appending a non-empty line-terminated text keeps the whole line-terminated. */
  lemma LineTerminatedAppend(a: string, b: string)
    requires LineTerminated(b) && b != []
    ensures LineTerminated(a + b) && a + b != []
  {
    assert (a + b)[|a + b| - 1] == b[|b| - 1];
  }
}
