/** `uploadFile`: the client-side checks on a chosen image, the multipart
    body it builds and how it reads the server's answer. The request itself
    is not sent: the response is an input. */
module FileUpload {
  import opened JsText
  import opened JsValues
  import opened Browser

  /** The MIME types the upload accepts. */
  const ValidTypes: seq<string> := ["image/jpeg", "image/png", "image/gif", "image/webp"]

  /** 5 MB, counted as 5 * 1024 * 1024 bytes. */
  const MaxSize: nat := 5 * 1024 * 1024

  const NoFileMessage := "No file provided"
  const InvalidTypeMessage := "Invalid file type. Please upload a JPEG, PNG, GIF, or WebP image."
  const TooLargeMessage := "File is too large. Maximum file size is 5MB."

  /** The three checks, in their order: a file, then its type, then its size.
      `None` means the file may be sent. */
  function PrecheckError(file: Option<File>): (e: Option<string>)
    ensures file.None? ==> e == Some(NoFileMessage)
    ensures file.Some? && file.value.mimeType !in ValidTypes ==> e == Some(InvalidTypeMessage)
    ensures file.Some? && file.value.mimeType in ValidTypes && file.value.size > MaxSize ==>
      e == Some(TooLargeMessage)
    ensures e.None? <==> file.Some? && file.value.mimeType in ValidTypes && file.value.size <= MaxSize
  {
    if file.None? then Some(NoFileMessage)
    else if file.value.mimeType !in ValidTypes then Some(InvalidTypeMessage)
    else if file.value.size > MaxSize then Some(TooLargeMessage)
    else None
  }

  /** The size limit is inclusive: an image of exactly 5 MiB passes and one
      byte more does not. */
  lemma SizeLimitIsInclusive(name: string, mimeType: string)
    requires mimeType in ValidTypes
    ensures PrecheckError(Some(File(name, mimeType, 5 * 1024 * 1024))).None?
    ensures PrecheckError(Some(File(name, mimeType, 5 * 1024 * 1024 + 1))) == Some(TooLargeMessage)
  {
  }

  /** A field takes part in the body unless its value is `undefined` or `null`. */
  predicate HasValue(field: (string, Value)) {
    !field.1.Undefined? && !field.1.Null?
  }

  /** The entry a present field becomes: its name and `String(value)`. */
  function FieldEntry(field: (string, Value)): Entry {
    (field.0, Text(JsString(field.1)))
  }

  /** The entries the extra fields add, in `Object.entries` order. */
  function FieldEntries(fields: seq<(string, Value)>): seq<Entry> {
    if |fields| == 0 then []
    else
      var last := fields[|fields| - 1];
      FieldEntries(fields[..|fields| - 1]) + (if HasValue(last) then [FieldEntry(last)] else [])
  }

  /** The extra entries are exactly the present fields, in their order, each
      as its text. */
  lemma {:induction false} FieldEntriesArePresentFields(fields: seq<(string, Value)>)
    ensures var kept := Filter(fields, HasValue);
      FieldEntries(fields) == seq(|kept|, i requires 0 <= i < |kept| => FieldEntry(kept[i]))
  {
    if |fields| > 0 {
      var init, last := fields[..|fields| - 1], fields[|fields| - 1];
      FieldEntriesArePresentFields(init);
      assert fields == init + [last];
      FilterAppend(init, [last], HasValue);
      assert Filter([last], HasValue) == if HasValue(last) then [last] else [];
    }
  }

  /** What `uploadFile` resolves to or rejects with once the server has
      answered: the body on success; otherwise the body text, or
      "Error: <status>" when that text is empty. */
  function ResponseOutcome(response: Response): (r: Outcome<string>)
    ensures response.ok <==> r.Ok?
    ensures r.Ok? ==> r.value == response.body
    ensures !response.ok && response.body != "" ==> r == Thrown(response.body)
    ensures !response.ok && response.body == "" ==> r == Thrown("Error: " + IntToString(response.status))
  {
    if response.ok then Ok(response.body)
    else if response.body != "" then Thrown(response.body)
    else Thrown("Error: " + IntToString(response.status))
  }

  /** `uploadFile(file, endpoint, formData)`. `sent` is the request made, if
      any; a file that fails a check is rejected before any request. */
  method UploadFile(file: Option<File>, endpoint: string, fields: seq<(string, Value)>, response: Response)
    returns (sent: Option<Post>, r: Outcome<string>)
    ensures PrecheckError(file).Some? ==> sent.None? && r == Thrown(PrecheckError(file).value)
    ensures PrecheckError(file).None? ==>
      && sent == Some(Post(endpoint, [("photo", Blob(file.value))] + FieldEntries(fields)))
      && r == ResponseOutcome(response)
  {
    var error := PrecheckError(file);
    if error.Some? {
      return None, Thrown(error.value);
    }
    var data := new FormData();
    data.Append("photo", Blob(file.value));
    var i := 0;
    while i < |fields|
      invariant 0 <= i <= |fields|
      invariant data.entries == [("photo", Blob(file.value))] + FieldEntries(fields[..i])
    {
      if HasValue(fields[i]) {
        data.Append(fields[i].0, Text(JsString(fields[i].1)));
      }
      assert fields[..i + 1][..i] == fields[..i];
      i := i + 1;
    }
    assert fields[..|fields|] == fields;
    sent := Some(Post(endpoint, data.entries));
    r := ResponseOutcome(response);
  }
}
