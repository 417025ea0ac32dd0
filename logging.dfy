/** The browser console, as the append-only list of lines the dashboard
    writes with `console.log` and `console.error`. */
module Logging {

  datatype Level = Info | Error

  datatype Entry = Entry(level: Level, text: string)

  class Console {
    var entries: seq<Entry>

    constructor ()
      ensures entries == []
    {
      entries := [];
    }

    /** `console.log(text)` */
    method Log(text: string)
      modifies this
      ensures entries == old(entries) + [Entry(Info, text)]
    {
      entries := entries + [Entry(Info, text)];
    }

    /** `console.error(text)` */
    method Fail(text: string)
      modifies this
      ensures entries == old(entries) + [Entry(Error, text)]
    {
      entries := entries + [Entry(Error, text)];
    }
  }
}
