/** The quick incident form of the field app: its validation, the five-photo limit and
    photo removal, and a submit that goes ahead only on a valid form. The component's
    React state (`formData`, `errors`, `isSubmitting`) is the state of a class. */
module QuickIncidentForm {
  import opened Common

  datatype IncidentKind = Injury | NearMiss | Hazard
  datatype Severity = Low | Medium | High

  /** A picked file. */
  datatype Photo = Photo(name: string)

  /** The form; an unselected type or severity (`''`) is `None`. */
  datatype FormData = FormData(
    kind: Option<IncidentKind>,
    severity: Option<Severity>,
    description: string,
    location: string,
    photos: seq<Photo>)

  const EmptyForm: FormData := FormData(None, None, "", "", [])
  const MaxPhotos: nat := 5
  const MinDescriptionLength: nat := 10
  const TooManyPhotos: string := "Maximum 5 photos allowed"

  datatype Field = TypeField | SeverityField | DescriptionField

  /** The errors `validate` reports, by field. An empty description is shorter than 10. */
  function Errors(form: FormData): (e: map<Field, string>)
    ensures TypeField in e <==> form.kind.None?
    ensures SeverityField in e <==> form.severity.None?
    ensures DescriptionField in e <==> |form.description| < MinDescriptionLength
    ensures TypeField in e ==> e[TypeField] == "Incident type is required"
    ensures SeverityField in e ==> e[SeverityField] == "Severity is required"
    ensures DescriptionField in e ==> e[DescriptionField] == "Description must be at least 10 characters"
  {
    var e1: map<Field, string> := if form.kind.None? then map[TypeField := "Incident type is required"] else map[];
    var e2 := if form.severity.None? then e1[SeverityField := "Severity is required"] else e1;
    if |form.description| < MinDescriptionLength
    then e2[DescriptionField := "Description must be at least 10 characters"] else e2
  }

  /** A form passes exactly when a type and a severity are chosen and the description has
      at least 10 characters. */
  lemma ValidForms(form: FormData)
    ensures Errors(form) == map[] <==>
              form.kind.Some? && form.severity.Some? && |form.description| >= MinDescriptionLength
  {
    if Errors(form) == map[] {
      assert TypeField !in Errors(form);
    }
  }

  /** `handlePhotoUpload`'s list: the new files after the existing ones, or `None` (and a
      toast) when that would make more than five. */
  function AddPhotos(photos: seq<Photo>, files: seq<Photo>): (r: Option<seq<Photo>>)
    ensures r.None? <==> |photos| + |files| > MaxPhotos
    ensures r.Some? ==> |r.value| == |photos| + |files| <= MaxPhotos
    ensures r.Some? ==> r.value[..|photos|] == photos && r.value[|photos|..] == files
  {
    if |photos| + |files| > MaxPhotos then None else Some(photos + files)
  }

  /** `photos.filter((_, i) => i !== index)`. */
  function RemovePhotoAt(photos: seq<Photo>, index: int): (r: seq<Photo>)
    ensures 0 <= index < |photos| ==> |r| == |photos| - 1
    ensures 0 <= index < |photos| ==> forall i :: 0 <= i < |r| ==> r[i] == photos[if i < index then i else i + 1]
    ensures !(0 <= index < |photos|) ==> r == photos
    decreases |photos|
  {
    if photos == [] then []
    else (if index == 0 then [] else [photos[0]]) + RemovePhotoAt(photos[1..], index - 1)
  }

  /** Removing the photo just added undoes the upload. */
  lemma {:induction false} RemoveUndoesAdd(photos: seq<Photo>, p: Photo)
    requires |photos| < MaxPhotos
    ensures AddPhotos(photos, [p]).Some? && RemovePhotoAt(AddPhotos(photos, [p]).value, |photos|) == photos
  {
    var added := AddPhotos(photos, [p]).value;
    var r := RemovePhotoAt(added, |photos|);
    assert |r| == |photos|;
    forall i | 0 <= i < |r| ensures r[i] == photos[i] {
      assert added[..|photos|] == photos;
      assert added[i] == added[..|photos|][i];
    }
  }

  /** The component's state. */
  class FormState {
    var formData: FormData
    var errors: map<Field, string>
    var isSubmitting: bool

    /** The photo limit every handler keeps. */
    predicate Valid()
      reads this
    {
      |formData.photos| <= MaxPhotos
    }

    constructor ()
      ensures formData == EmptyForm && errors == map[] && !isSubmitting
      ensures Valid()
    {
      formData := EmptyForm;
      errors := map[];
      isSubmitting := false;
    }

    /** `validate`: fills the errors one check at a time, stores them, and reports whether
        there were none. */
    method Validate() returns (ok: bool)
      modifies this
      ensures errors == Errors(formData)
      ensures ok <==> errors == map[]
      ensures formData == old(formData) && isSubmitting == old(isSubmitting)
    {
      var newErrors: map<Field, string> := map[];
      if formData.kind.None? {
        newErrors := newErrors[TypeField := "Incident type is required"];
      }
      if formData.severity.None? {
        newErrors := newErrors[SeverityField := "Severity is required"];
      }
      if |formData.description| < MinDescriptionLength {
        newErrors := newErrors[DescriptionField := "Description must be at least 10 characters"];
      }
      errors := newErrors;
      ok := |newErrors| == 0;
    }

    method HandlePhotoUpload(files: seq<Photo>) returns (toast: Option<string>)
      requires Valid()
      modifies this
      ensures Valid()
      ensures AddPhotos(old(formData.photos), files).None? ==>
                formData == old(formData) && toast == Some(TooManyPhotos)
      ensures AddPhotos(old(formData.photos), files).Some? ==>
                formData == old(formData).(photos := AddPhotos(old(formData.photos), files).value) && toast == None
      ensures errors == old(errors) && isSubmitting == old(isSubmitting)
    {
      if |formData.photos| + |files| > MaxPhotos {
        return Some(TooManyPhotos);
      }
      formData := formData.(photos := formData.photos + files);
      toast := None;
    }

    method RemovePhoto(index: int)
      requires Valid()
      modifies this
      ensures Valid()
      ensures formData == old(formData).(photos := RemovePhotoAt(old(formData.photos), index))
      ensures errors == old(errors) && isSubmitting == old(isSubmitting)
    {
      formData := formData.(photos := RemovePhotoAt(formData.photos, index));
    }

    /** `handleSubmit`, with the delayed callback run at once: an invalid form is not
        submitted; a valid one is handed to `onSubmit` with a toast saying whether it was
        sent or queued. */
    method HandleSubmit(online: bool) returns (submitted: Option<FormData>, toast: Option<string>)
      modifies this
      ensures errors == Errors(old(formData)) && formData == old(formData)
      ensures submitted.Some? <==> Errors(old(formData)) == map[]
      ensures submitted.Some? ==> submitted.value == old(formData)
      ensures submitted.Some? ==>
                toast == Some(if online then "Incident reported successfully" else "Queued for sync when online")
      ensures submitted.None? ==> toast == None && isSubmitting == old(isSubmitting)
      ensures submitted.Some? ==> !isSubmitting
    {
      var ok := Validate();
      if !ok {
        return None, None;
      }
      isSubmitting := true;
      toast := Some(if online then "Incident reported successfully" else "Queued for sync when online");
      submitted := Some(formData);
      isSubmitting := false;
    }
  }
}
