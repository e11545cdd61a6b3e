/** The NGO's "list an animal for adoption" form: its schema, its defaults,
    the multipart request a submit sends and the `isSubmitting` flag. */
module AdoptionForm {
  import opened JsText
  import opened Browser
  import opened FormChecks
  import Schema

  datatype AdoptionValues = AdoptionValues(
    name: string, animalType: string, gender: string, age: string, vaccinated: string, description: string)

  const DefaultValues := AdoptionValues("", "", "unknown", "", "no", "")

  /** `formSchema`: issues in field order. */
  function FormIssues(v: AdoptionValues): (issues: seq<Issue>)
    ensures issues == [] <==>
      && JsLength(v.name) >= 1 && JsLength(v.animalType) >= 1 && v.gender in Schema.GenderNames && JsLength(v.age) >= 1
      && v.vaccinated in Schema.VaccinatedNames && JsLength(v.description) >= 10
  {
    MinLength("name", v.name, 1, "Name is required")
      + MinLength("animalType", v.animalType, 1, "Please select an animal type")
      + OneOf("gender", v.gender, Schema.GenderNames)
      + MinLength("age", v.age, 1, "Age is required")
      + OneOf("vaccinated", v.vaccinated, Schema.VaccinatedNames)
      + MinLength("description", v.description, 10, "Description must be at least 10 characters")
  }

  /** The untouched form cannot be submitted: its text fields are reported,
      while the default gender and vaccination status are accepted. */
  lemma DefaultsAreRejected()
    ensures Paths(FormIssues(DefaultValues)) == ["name", "animalType", "age", "description"]
  {
  }

  /** `Object.entries(values)`, in schema field order. */
  function ValueEntries(v: AdoptionValues): (fields: seq<(string, string)>)
    ensures |fields| == 6
  {
    [("name", v.name), ("animalType", v.animalType), ("gender", v.gender), ("age", v.age),
     ("vaccinated", v.vaccinated), ("description", v.description)]
  }

  function AsText(fields: seq<(string, string)>): (entries: seq<Entry>)
    ensures |entries| == |fields|
    ensures forall i :: 0 <= i < |fields| ==> entries[i] == (fields[i].0, Text(fields[i].1))
  {
    seq(|fields|, i requires 0 <= i < |fields| => (fields[i].0, Text(fields[i].1)))
  }

  /** The request body: every validated field, then the lister's id, then
      the photo when one was chosen. */
  function ListingEntries(v: AdoptionValues, lister: int, photo: Option<File>): (entries: seq<Entry>)
    ensures |entries| == 7 + (if photo.Some? then 1 else 0)
    ensures entries[..6] == AsText(ValueEntries(v))
    ensures entries[6] == ("listedById", Text(IntToString(lister)))
    ensures photo.Some? ==> entries[7] == ("photo", Blob(photo.value))
  {
    AsText(ValueEntries(v)) + [("listedById", Text(IntToString(lister)))]
      + (if photo.Some? then [("photo", Blob(photo.value))] else [])
  }

  class AdoptionFormState {
    var values: AdoptionValues
    var selectedFile: Option<File>
    var isSubmitting: bool

    constructor ()
      ensures values == DefaultValues && selectedFile.None? && !isSubmitting
    {
      values := DefaultValues;
      selectedFile := None;
      isSubmitting := false;
    }

    /** `handleFileChange`: the first chosen file, if any, replaces the
        selection. */
    method HandleFileChange(files: seq<File>)
      modifies this
      ensures selectedFile == if |files| > 0 then Some(files[0]) else old(selectedFile)
      ensures values == old(values) && isSubmitting == old(isSubmitting)
    {
      if |files| > 0 {
        selectedFile := Some(files[0]);
      }
    }

    /** `form.handleSubmit(onSubmit)`: invalid values or no signed-in user
        send nothing. Otherwise the form is posted with `isSubmitting` set
        (`busy`), `onSuccess` runs only on an ok response, and the flag is
        cleared whatever the outcome. */
    method HandleSubmit(user: Option<Account>, response: Response)
      returns (sent: Option<Post>, busy: bool, succeeded: bool)
      modifies this
      ensures FormIssues(old(values)) != [] || user.None? ==>
        sent.None? && !succeeded && isSubmitting == old(isSubmitting)
      ensures FormIssues(old(values)) == [] && user.Some? ==>
        && sent == Some(Post("/api/adoptable-animals", ListingEntries(old(values), user.value.id, old(selectedFile))))
        && busy && !isSubmitting && succeeded == response.ok
      ensures values == old(values) && selectedFile == old(selectedFile)
    {
      succeeded := false;
      busy := false;
      if FormIssues(values) != [] || user.None? {
        return None, busy, succeeded;
      }
      isSubmitting := true;
      busy := isSubmitting;
      var data := new FormData();
      var fields := ValueEntries(values);
      var i := 0;
      while i < |fields|
        invariant 0 <= i <= |fields|
        invariant data.entries == AsText(fields[..i])
        modifies data
      {
        data.Append(fields[i].0, Text(fields[i].1));
        i := i + 1;
      }
      assert fields[..|fields|] == fields;
      data.Append("listedById", Text(IntToString(user.value.id)));
      if selectedFile.Some? {
        data.Append("photo", Blob(selectedFile.value));
      }
      assert data.entries == ListingEntries(values, user.value.id, selectedFile);
      sent := Some(Post("/api/adoptable-animals", data.entries));
      succeeded := response.ok;
      isSubmitting := false;
    }
  }

  /** A listing that passes the form has a gender and vaccination status the
      server's schema knows. */
  lemma AcceptedEnumsParse(v: AdoptionValues)
    requires FormIssues(v) == []
    ensures Schema.ParseGender(v.gender).Some? && Schema.ParseVaccinated(v.vaccinated).Some?
  {
  }
}
