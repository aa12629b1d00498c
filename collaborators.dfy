/**
 * What the profile controller receives and the helpers it calls whose code
 * is not part of this model: the request body, `checkRequiredFields` and
 * the image upload service `uploadToCloudinary`.
 */
module Collaborators {
  import opened JsValues
  import opened Errors

  /** The request body fields the profile controller destructures; each may be absent. */
  datatype Body = Body(
    gender: Option<string>,
    dob: Option<string>,
    hobbies: Option<string>,
    bio: Option<string>,
    longitude: Option<string>,
    latitude: Option<string>,
    city: Option<string>,
    state: Option<string>,
    country: Option<string>,
    range: Option<string>)

  /** The body keys a required-field check can name. */
  datatype Field = GenderField | DobField | HobbiesField | BioField

  function FieldValue(body: Body, f: Field): Option<string> {
    match f
    case GenderField => body.gender
    case DobField => body.dob
    case HobbiesField => body.hobbies
    case BioField => body.bio
  }

  /**
   * `checkRequiredFields(body, requirements)`: the requirements are checked in
   * order and the first one that is absent or empty raises a BadRequest
   * naming that field by its label; `None` when every field is present.
   */
  function CheckRequiredFields(body: Body, requirements: seq<(Field, string)>): (failure: Option<ErrorValue>)
    ensures failure.None? <==> forall i :: 0 <= i < |requirements| ==> Truthy(FieldValue(body, requirements[i].0))
    ensures failure.Some? ==> exists i :: (0 <= i < |requirements|
      && !Truthy(FieldValue(body, requirements[i].0))
      && failure.value == Raise(BadRequest, requirements[i].1)
      && forall j :: 0 <= j < i ==> Truthy(FieldValue(body, requirements[j].0)))
  {
    if requirements == [] then None
    else if !Truthy(FieldValue(body, requirements[0].0)) then Some(Raise(BadRequest, requirements[0].1))
    else
      var rest := CheckRequiredFields(body, requirements[1..]);
      assert forall j :: 1 <= j < |requirements| ==> requirements[j] == requirements[1..][j - 1];
      rest
  }

  /** An uploaded file as the multipart parser hands it over; its bytes are not modelled. */
  datatype File = File(originalName: string)

  /** A photo stored by the image service. */
  datatype Photo = Photo(url: string, publicId: string)

  /** Uploading one file: the stored photo, or the error the service throws. */
  type Uploader = File -> Result<Photo, ErrorValue>

  /**
   * `uploadToCloudinary(files)`: all or nothing. It succeeds exactly when every
   * file uploads, giving one photo per file in file order; otherwise it
   * throws the error of the first file that failed.
   */
  function UploadAll(upload: Uploader, files: seq<File>): (r: Result<seq<Photo>, ErrorValue>)
    ensures r.Success? <==> forall i :: 0 <= i < |files| ==> upload(files[i]).Success?
    ensures r.Success? ==> (|r.value| == |files|
      && forall i :: 0 <= i < |files| ==> r.value[i] == upload(files[i]).value)
    ensures r.Failure? ==> exists i :: (0 <= i < |files|
      && upload(files[i]) == Failure(r.error)
      && forall j :: 0 <= j < i ==> upload(files[j]).Success?)
  {
    if files == [] then Success([])
    else match upload(files[0])
      case Failure(e) => Failure(e)
      case Success(photo) =>
        var rest := UploadAll(upload, files[1..]);
        assert forall j :: 0 < j < |files| ==> files[j] == files[1..][j - 1];
        if rest.Failure? then rest else Success([photo] + rest.value)
  }
}
