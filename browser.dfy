/** The browser objects the client code touches: a selected `File`, the
    `FormData` it fills before a `fetch`, and the parts of a `fetch`
    response it reads. The network itself is not modelled: a response is
    an input. */
module Browser {

  /** A chosen file: its name, MIME type (`file.type`) and size in bytes. */
  datatype File = File(name: string, mimeType: string, size: nat)

  datatype FormValue = Text(text: string) | Blob(file: File)

  /** One `FormData` entry: a field name and its value. */
  type Entry = (string, FormValue)

  /** A `fetch(url, { method: 'POST', body: formData })` the page sends. */
  datatype Post = Post(url: string, entries: seq<Entry>)

  /** The signed-in user `useAuth()` hands to the pages: its id and role. */
  datatype Account = Account(id: int, role: string)

  /** `response.ok`, `response.status` and what `response.text()` yields. */
  datatype Response = Response(ok: bool, status: int, body: string)

  /** `new FormData()`: the entries are kept in the order they were appended. */
  class FormData {
    var entries: seq<Entry>

    constructor ()
      ensures entries == []
    {
      entries := [];
    }

    /** `formData.append(name, value)` */
    method Append(name: string, value: FormValue)
      modifies this
      ensures entries == old(entries) + [(name, value)]
    {
      entries := entries + [(name, value)];
    }
  }
}
