/** The output stream the header is written to (llvm::raw_ostream): text is only ever appended. */
module RawOstream {

  class Stream {
    /** Everything written so far. */
    var text: string

    constructor ()
      ensures text == []
    {
      text := [];
    }

    /** `out << s` */
    method Write(s: string)
      modifies this
      ensures text == old(text) + s
    {
      text := text + s;
    }
  }
}
