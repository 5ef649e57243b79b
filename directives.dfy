/**
 * Nesting of preprocessor conditionals, read line by line: a line starting with `#if`
 * (`#if`, `#ifdef`, `#ifndef`) opens one level, `#endif` closes one, `#else` keeps the level.
 */
module Directives {
  import opened Wrappers
  import opened TextLines
  import opened Emitters

  /** The change of nesting depth one line makes. */
  function Delta(line: string): int {
    if |line| >= 3 && line[..3] == "#if" then 1
    else if line == "#endif" then -1
    else 0
  }

  /** A line spelled `#if...` opens a level. */
  lemma OpensLevel(line: string)
    requires |line| >= 3 && line[0] == '#' && line[1] == 'i' && line[2] == 'f'
    ensures Delta(line) == 1
  {
    assert line[..3] == "#if";
  }

  /** The nesting depth after a sequence of lines, starting from depth zero. */
  function Depth(lines: seq<string>): int {
    if lines == [] then 0 else Delta(lines[0]) + Depth(lines[1..])
  }

  /** Every `#endif` closes a conditional opened before it, and every conditional is closed. */
  predicate Balanced(lines: seq<string>) {
    && Depth(lines) == 0
    && forall k | 0 <= k <= |lines| :: Depth(lines[..k]) >= 0
  }

  lemma {:induction false} DepthAppend(a: seq<string>, b: seq<string>)
    ensures Depth(a + b) == Depth(a) + Depth(b)
  {
    if a != [] {
      assert (a + b)[1..] == a[1..] + b;
      DepthAppend(a[1..], b);
    } else {
      assert a + b == b;
    }
  }

  /** Two balanced texts in a row are balanced. */
  lemma BalancedAppend(a: seq<string>, b: seq<string>)
    requires Balanced(a) && Balanced(b)
    ensures Balanced(a + b)
  {
    DepthAppend(a, b);
    forall k | 0 <= k <= |a + b| ensures Depth((a + b)[..k]) >= 0 {
      if k <= |a| {
        assert (a + b)[..k] == a[..k];
      } else {
        assert (a + b)[..k] == a + b[..k - |a|];
        DepthAppend(a, b[..k - |a|]);
      }
    }
  }

  /** The depth never drops below zero and ends at one: a single conditional is left open. */
  predicate OpenOnce(lines: seq<string>) {
    && Depth(lines) == 1
    && forall k | 0 <= k <= |lines| :: Depth(lines[..k]) >= 0
  }

  /** Lines that neither open nor close a conditional. */
  predicate Neutral(lines: seq<string>) {
    forall i | 0 <= i < |lines| :: Delta(lines[i]) == 0
  }

  lemma {:induction false} NeutralDepth(lines: seq<string>)
    requires Neutral(lines)
    ensures Depth(lines) == 0
  {
    if lines != [] {
      NeutralDepth(lines[1..]);
    }
  }

  lemma NeutralBalanced(lines: seq<string>)
    requires Neutral(lines)
    ensures Balanced(lines)
  {
    NeutralDepth(lines);
    forall k | 0 <= k <= |lines| ensures Depth(lines[..k]) >= 0 {
      NeutralDepth(lines[..k]);
    }
  }

  /** An opening line followed by a balanced text leaves that one conditional open. */
  lemma OpenLine(open: string, inner: seq<string>)
    requires Delta(open) == 1 && Balanced(inner)
    ensures OpenOnce([open] + inner)
  {
    var all := [open] + inner;
    assert all[1..] == inner;
    forall k | 0 <= k <= |all| ensures Depth(all[..k]) >= 0 {
      if k > 0 {
        assert all[..k][1..] == inner[..k - 1];
      }
    }
  }

  /** Neutral lines after an open conditional leave it open. */
  lemma OpenThenNeutral(x: seq<string>, mid: seq<string>)
    requires OpenOnce(x) && Neutral(mid)
    ensures OpenOnce(x + mid)
  {
    DepthAppend(x, mid);
    NeutralDepth(mid);
    forall k | 0 <= k <= |x + mid| ensures Depth((x + mid)[..k]) >= 0 {
      if k <= |x| {
        assert (x + mid)[..k] == x[..k];
      } else {
        assert (x + mid)[..k] == x + mid[..k - |x|];
        DepthAppend(x, mid[..k - |x|]);
        NeutralDepth(mid[..k - |x|]);
      }
    }
  }

  /** An `#endif` after a text that leaves one conditional open balances it. */
  lemma CloseOpen(x: seq<string>)
    requires OpenOnce(x)
    ensures Balanced(x + ["#endif"])
  {
    DepthAppend(x, ["#endif"]);
    assert Depth(["#endif"]) == -1 by {
      assert ["#endif"][1..] == [];
      assert "#endif"[..3][1] != "#if"[1];
    }
    forall k | 0 <= k <= |x| + 1 ensures Depth((x + ["#endif"])[..k]) >= 0 {
      if k <= |x| {
        assert (x + ["#endif"])[..k] == x[..k];
      } else {
        assert (x + ["#endif"])[..k] == x + ["#endif"];
      }
    }
  }

  /** An opening line, a balanced text and an `#endif` are balanced. */
  lemma BalancedWrapped(open: string, inner: seq<string>)
    requires Delta(open) == 1 && Balanced(inner)
    ensures Balanced([open] + inner + ["#endif"])
  {
    OpenLine(open, inner);
    CloseOpen([open] + inner);
  }

  /** A line that is neither an opening nor an `#endif` is balanced on its own. */
  lemma NeutralLine(line: string)
    requires Delta(line) == 0
    ensures Balanced([line])
  {
    assert [line][1..] == [];
    assert forall k | 0 <= k <= 1 :: [line][..k] == if k == 0 then [] else [line];
  }

  /**
   * A conditional written by the emitter is balanced when its cases are: the `#if defined`
   * line opens a level, the `#endif` line closes it, and an `#else` between them keeps it.
   */
  lemma IfDefinedBalanced(macro: string, firstCase: string, alternative: Option<string>)
    requires '\n' !in macro
    requires LineTerminated(firstCase) && Balanced(Lines(firstCase))
    requires alternative.Some? ==> LineTerminated(alternative.value) && Balanced(Lines(alternative.value))
    ensures Balanced(Lines(IfDefined(macro, firstCase, alternative)))
  {
    IfDefinedLines(macro, firstCase, alternative);
    var open := IfLine(macro);
    OpensLevel(open);
    match alternative
    case None =>
      ConditionalBalanced(open, Lines(firstCase), []);
    case Some(alt) =>
      ElseBalanced(Lines(alt));
      ConditionalBalanced(open, Lines(firstCase), ["#else"] + Lines(alt));
  }

  /** `#else` followed by a balanced alternative is balanced. */
  lemma ElseBalanced(alt: seq<string>)
    requires Balanced(alt)
    ensures Balanced(["#else"] + alt)
  {
    assert Delta("#else") == 0 by {
      assert "#else"[..3][1] != "#if"[1];
    }
    NeutralLine("#else");
    BalancedAppend(["#else"], alt);
  }

  /** An opening line, a balanced first case, a balanced rest and `#endif` are balanced. */
  lemma ConditionalBalanced(open: string, first: seq<string>, alts: seq<string>)
    requires Delta(open) == 1 && Balanced(first) && Balanced(alts)
    ensures Balanced([open] + first + alts + ["#endif"])
  {
    BalancedAppend(first, alts);
    BalancedWrapped(open, first + alts);
    assert [open] + first + alts + ["#endif"] == [open] + (first + alts) + ["#endif"];
  }
}
