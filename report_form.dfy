/** The "report an injured animal" form: its schema, its defaults, the
    location lookup, and the multipart request a submit sends. */
module ReportForm {
  import opened JsText
  import opened Browser
  import opened FormChecks
  import Schema

  datatype ReportValues = ReportValues(animalType: string, urgency: string, description: string, location: string)

  const DefaultValues := ReportValues("", "non-urgent", "", "")

  /** `formSchema`: issues in field order. */
  function FormIssues(v: ReportValues): (issues: seq<Issue>)
    ensures issues == [] <==>
      JsLength(v.animalType) >= 1 && v.urgency in Schema.UrgencyNames && JsLength(v.description) >= 10 && JsLength(v.location) >= 3
  {
    MinLength("animalType", v.animalType, 1, "Please select an animal type")
      + OneOf("urgency", v.urgency, Schema.UrgencyNames)
      + MinLength("description", v.description, 10, "Description must be at least 10 characters")
      + MinLength("location", v.location, 3, "Please provide a location")
  }

  /** The untouched form cannot be submitted: every text field is reported,
      while the default urgency is accepted. */
  lemma DefaultsAreRejected()
    ensures Paths(FormIssues(DefaultValues)) == ["animalType", "description", "location"]
  {
  }

  /** The request body, in append order: the four fields, the reporter's
      id, then the photo when one was chosen. */
  function ReportEntries(v: ReportValues, reporter: int, photo: Option<File>): seq<Entry> {
    [("animalType", Text(v.animalType)), ("urgency", Text(v.urgency)),
     ("description", Text(v.description)), ("location", Text(v.location)),
     ("reportedById", Text(IntToString(reporter)))]
      + (if photo.Some? then [("photo", Blob(photo.value))] else [])
  }

  function Names(entries: seq<Entry>): (names: seq<string>)
    ensures |names| == |entries|
    ensures forall i :: 0 <= i < |entries| ==> names[i] == entries[i].0
  {
    seq(|entries|, i requires 0 <= i < |entries| => entries[i].0)
  }

  /** The reporter's id follows the form fields, and a photo entry comes
      last, present exactly when a file was chosen. */
  lemma EntriesOrder(v: ReportValues, reporter: int, photo: Option<File>)
    ensures Names(ReportEntries(v, reporter, photo)) ==
      ["animalType", "urgency", "description", "location", "reportedById"]
        + (if photo.Some? then ["photo"] else [])
  {
  }

  /** What `getCurrentLocation()` yields: an error text and an address, or
      a rejection. */
  datatype Lookup = Located(error: string, address: string) | LookupFailed

  /** Which of the parent's callbacks a submit ends in. */
  datatype Callback = NoCallback | Succeeded | Failed(message: string)

  class ReportFormState {
    var values: ReportValues
    var selectedFile: Option<File>
    /** The parent's `isSubmitting`, as set through `setIsSubmitting`. */
    var isSubmitting: bool
    /** `isGettingLocation`: true while a location lookup is pending; the
        location button is disabled meanwhile. */
    var isGettingLocation: bool

    constructor ()
      ensures values == DefaultValues && selectedFile.None? && !isSubmitting && !isGettingLocation
    {
      values := DefaultValues;
      selectedFile := None;
      isSubmitting := false;
      isGettingLocation := false;
    }

    /** `handleGetLocation`: a reported error clears the location, an
        address fills it, and a rejected lookup leaves it alone. `busy` is
        `isGettingLocation` while the lookup is awaited; the `finally` block
        clears it. `toast` is the error toast's text, if one is shown. */
    method HandleGetLocation(lookup: Lookup) returns (busy: bool, toast: Option<string>)
      modifies this
      ensures busy && !isGettingLocation
      ensures lookup.Located? && lookup.error != "" ==>
        values == old(values).(location := "") && toast == Some(lookup.error)
      ensures lookup.Located? && lookup.error == "" ==>
        values == old(values).(location := lookup.address) && toast.None?
      ensures lookup.LookupFailed? ==> values == old(values) && toast == Some("Failed to get your location")
      ensures selectedFile == old(selectedFile) && isSubmitting == old(isSubmitting)
    {
      isGettingLocation := true;
      busy := isGettingLocation;
      match lookup {
        case LookupFailed =>
          toast := Some("Failed to get your location");
        case Located(error, address) =>
          if error != "" {
            toast := Some(error);
            values := values.(location := "");
          } else {
            toast := None;
            values := values.(location := address);
          }
      }
      isGettingLocation := false;
    }

    /** `handleFileChange`: the first chosen file, if any, replaces the
        selection. */
    method HandleFileChange(files: seq<File>)
      modifies this
      ensures selectedFile == if |files| > 0 then Some(files[0]) else old(selectedFile)
      ensures values == old(values) && isSubmitting == old(isSubmitting) && isGettingLocation == old(isGettingLocation)
    {
      if |files| > 0 {
        selectedFile := Some(files[0]);
      }
    }

    /** `form.handleSubmit(onSubmit)`: invalid values or no signed-in user
        send nothing; otherwise the form is posted and the response picks
        `onSuccess` or `onError`. */
    method HandleSubmit(user: Option<Account>, response: Response) returns (sent: Option<Post>, callback: Callback)
      modifies this
      ensures FormIssues(old(values)) != [] || user.None? ==>
        sent.None? && callback.NoCallback? && isSubmitting == old(isSubmitting)
      ensures FormIssues(old(values)) == [] && user.Some? ==>
        && sent == Some(Post("/api/reported-animals", ReportEntries(old(values), user.value.id, old(selectedFile))))
        && isSubmitting
        && (response.ok <==> callback.Succeeded?)
        && (!response.ok ==> callback == Failed("Error: " + IntToString(response.status)))
      ensures values == old(values) && selectedFile == old(selectedFile) && isGettingLocation == old(isGettingLocation)
    {
      if FormIssues(values) != [] || user.None? {
        return None, NoCallback;
      }
      isSubmitting := true;
      var data := new FormData();
      data.Append("animalType", Text(values.animalType));
      data.Append("urgency", Text(values.urgency));
      data.Append("description", Text(values.description));
      data.Append("location", Text(values.location));
      data.Append("reportedById", Text(IntToString(user.value.id)));
      if selectedFile.Some? {
        data.Append("photo", Blob(selectedFile.value));
      }
      assert data.entries == ReportEntries(values, user.value.id, selectedFile);
      sent := Some(Post("/api/reported-animals", data.entries));
      if response.ok {
        callback := Succeeded;
      } else {
        callback := Failed("Error: " + IntToString(response.status));
      }
    }
  }
}
