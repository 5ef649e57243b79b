/**
 * The small writers the header is assembled from: the language-mode conditionals
 * (emitCxxConditional, emitObjCConditional) and the self-guarded macro definition
 * (the emitMacro helper of writePrologue). A callback that writes into the stream is
 * modelled by the text it writes.
 */
module Emitters {
  import opened Wrappers
  import opened RawOstream
  import opened TextLines

  /** `#if defined(<macro>)`, the first case, an `#else` and the alternative only when one is given, `#endif`. */
  function IfDefined(macro: string, firstCase: string, alternative: Option<string>): string {
    IfLine(macro) + "\n" + (firstCase + Closing(alternative))
  }

  /** The opening directive, `#if defined(<macro>)`. */
  function IfLine(macro: string): string {
    "#if defined(" + macro + ")"
  }

  /** What follows the first case: `#else` and the alternative when one is given, then `#endif`. */
  function Closing(alternative: Option<string>): string {
    match alternative
    case None => "#endif\n"
    case Some(alt) => "#else\n" + (alt + "#endif\n")
  }

  /** Concatenation is associative; stated once so that long chains of appends need no element-wise reasoning. */
  lemma AppendAssoc<T>(a: seq<T>, b: seq<T>, c: seq<T>)
    ensures a + b + c == a + (b + c)
  {
  }

  /** Joining two texts that hold no newline gives a text that holds none. */
  lemma NoNewlineConcat(a: string, b: string)
    requires '\n' !in a && '\n' !in b
    ensures '\n' !in a + b
  {
    assert forall i | 0 <= i < |a + b| :: (a + b)[i] == if i < |a| then a[i] else b[i - |a|];
  }

  /** One line, then the rest of the text. */
  lemma LineThen(l: string, rest: string)
    requires '\n' !in l
    ensures Lines(l + "\n" + rest) == [l] + Lines(rest)
  {
    LinesOfLine(l);
    LinesAppend(l + "\n", rest);
  }

  lemma EndifLine()
    ensures Lines("#endif\n") == ["#endif"]
  {
    LinesOfLine("#endif");
    assert "#endif" + "\n" == "#endif\n";
  }

  /** The text after the first case as lines. */
  lemma ClosingLines(alternative: Option<string>)
    requires alternative.Some? ==> LineTerminated(alternative.value)
    ensures Lines(Closing(alternative)) ==
      (match alternative case None => [] case Some(alt) => ["#else"] + Lines(alt)) + ["#endif"]
  {
    EndifLine();
    match alternative
    case None =>
    case Some(alt) =>
      LinesOfLine("#else");
      assert "#else" + "\n" == "#else\n";
      LinesAppend("#else\n", alt + "#endif\n");
      LinesAppend(alt, "#endif\n");
  }

  /** The opening directive is one line of its own. */
  lemma OpeningLine(macro: string, rest: string)
    requires '\n' !in macro
    ensures Lines(IfLine(macro) + "\n" + rest) == [IfLine(macro)] + Lines(rest)
  {
    NoNewlineConcat("#if defined(", macro);
    NoNewlineConcat("#if defined(" + macro, ")");
    LineThen("#if defined(" + macro + ")", rest);
  }

  /** The first case's lines, then the closing lines. */
  lemma CaseThenClosingLines(firstCase: string, alternative: Option<string>)
    requires LineTerminated(firstCase)
    requires alternative.Some? ==> LineTerminated(alternative.value)
    ensures Lines(firstCase + Closing(alternative)) == Lines(firstCase)
      + (match alternative case None => [] case Some(alt) => ["#else"] + Lines(alt))
      + ["#endif"]
  {
    LinesAppend(firstCase, Closing(alternative));
    ClosingLines(alternative);
  }

  /** The conditional as lines: the opening directive, the case's lines, `#else` and the alternative's lines iff given, `#endif`. */
  lemma IfDefinedLines(macro: string, firstCase: string, alternative: Option<string>)
    requires '\n' !in macro
    requires LineTerminated(firstCase)
    requires alternative.Some? ==> LineTerminated(alternative.value)
    ensures Lines(IfDefined(macro, firstCase, alternative)) ==
      [IfLine(macro)] + Lines(firstCase)
      + (match alternative case None => [] case Some(alt) => ["#else"] + Lines(alt))
      + ["#endif"]
  {
    OpeningLine(macro, firstCase + Closing(alternative));
    CaseThenClosingLines(firstCase, alternative);
    var opening, cases := [IfLine(macro)], Lines(firstCase);
    var alternatives := match alternative case None => [] case Some(alt) => ["#else"] + Lines(alt);
    AppendAssoc(opening, cases + alternatives, ["#endif"]);
    AppendAssoc(opening, cases, alternatives);
  }

  /** The conditional is never empty and always ends with a newline. */
  lemma IfDefinedLineTerminated(macro: string, firstCase: string, alternative: Option<string>)
    ensures IfDefined(macro, firstCase, alternative) != []
    ensures LineTerminated(IfDefined(macro, firstCase, alternative))
  {
    var c := Closing(alternative);
    assert LineTerminated(c) && c != [] by {
      match alternative
      case None =>
      case Some(alt) => LineTerminatedAppend("#else\n" + alt, "#endif\n");
        AppendAssoc("#else\n", alt, "#endif\n");
    }
    LineTerminatedAppend(firstCase, c);
    LineTerminatedAppend(IfLine(macro) + "\n", firstCase + c);
  }

  /** The appends of a conditional writer, regrouped as the conditional's text. */
  lemma ConditionalText(before: string, opening: string, firstCase: string, alternative: Option<string>)
    ensures (if alternative.Some? then before + opening + firstCase + "#else\n" + alternative.value + "#endif\n"
             else before + opening + firstCase + "#endif\n")
      == before + (opening + (firstCase + Closing(alternative)))
  {
    var c := Closing(alternative);
    if alternative.Some? {
      var v := alternative.value;
      AppendAssoc(before + opening + firstCase, "#else\n", v);
      AppendAssoc(before + opening + firstCase, "#else\n" + v, "#endif\n");
      AppendAssoc("#else\n", v, "#endif\n");
    }
    AppendAssoc(before + opening, firstCase, c);
    AppendAssoc(before, opening, firstCase + c);
  }

  /** emitCxxConditional: the C++ case, and the C case when one is supplied, under `defined(__cplusplus)`. */
  method EmitCxxConditional(out: Stream, cxxCase: string, cCase: Option<string> := None)
    modifies out
    ensures out.text == old(out.text) + IfDefined("__cplusplus", cxxCase, cCase)
  {
    ghost var before := out.text;
    out.Write(IfLine("__cplusplus") + "\n");
    out.Write(cxxCase);
    if cCase.Some? {
      out.Write("#else\n");
      out.Write(cCase.value);
    }
    out.Write("#endif\n");
    ConditionalText(before, IfLine("__cplusplus") + "\n", cxxCase, cCase);
  }

  /** emitObjCConditional: the Objective-C case, and the other case when one is supplied, under `defined(__OBJC__)`. */
  method EmitObjCConditional(out: Stream, objcCase: string, nonObjCCase: Option<string> := None)
    modifies out
    ensures out.text == old(out.text) + IfDefined("__OBJC__", objcCase, nonObjCCase)
  {
    ghost var before := out.text;
    out.Write(IfLine("__OBJC__") + "\n");
    out.Write(objcCase);
    if nonObjCCase.Some? {
      out.Write("#else\n");
      out.Write(nonObjCCase.value);
    }
    out.Write("#endif\n");
    ConditionalText(before, IfLine("__OBJC__") + "\n", objcCase, nonObjCCase);
  }

  /** The two directives spelled out. */
  lemma IfLineExamples()
    ensures IfLine("__cplusplus") == "#if defined(__cplusplus)"
    ensures IfLine("__OBJC__") == "#if defined(__OBJC__)"
  {
  }

  /** A macro defined only when nothing defines it yet, so an earlier definition always wins. */
  function MacroDefinition(name: string, value: string): string {
    "#if !defined(" + name + ")" + "\n" + ("# define " + name + " " + value + "\n" + "#endif\n")
  }

  /** The guarded definition is exactly three lines: the guard, the definition, the `#endif`. */
  lemma MacroDefinitionLines(name: string, value: string)
    requires '\n' !in name && '\n' !in value
    ensures Lines(MacroDefinition(name, value)) ==
      ["#if !defined(" + name + ")", "# define " + name + " " + value, "#endif"]
  {
    NoNewlineConcat("#if !defined(", name);
    NoNewlineConcat("#if !defined(" + name, ")");
    NoNewlineConcat("# define ", name);
    NoNewlineConcat("# define " + name, " ");
    NoNewlineConcat("# define " + name + " ", value);
    LineThen("#if !defined(" + name + ")", "# define " + name + " " + value + "\n" + "#endif\n");
    LineThen("# define " + name + " " + value, "#endif\n");
    EndifLine();
  }

  /** emitMacro: the guarded definition of `name` as `value` (empty when not given). */
  method EmitMacro(out: Stream, name: string, value: string := "")
    modifies out
    ensures out.text == old(out.text) + MacroDefinition(name, value)
  {
    out.Write("#if !defined(" + name + ")\n");
    out.Write("# define " + name + " " + value + "\n");
    out.Write("#endif\n");
  }
}
