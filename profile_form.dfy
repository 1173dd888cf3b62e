/** The profile set-up form: its validation schema (a name of at least two
    characters and, where the runtime has a `File` class, a picked image file
    no larger than the size limit and of an accepted type), its default
    values, and what a submit sends. */
module ProfileForm {
  import opened Web
  import UserActions

  /** The size limit and the accepted MIME types, which come from the
      validation constants module. */
  datatype Limits = Limits(maxFileSize: int, acceptedImageTypes: seq<string>)

  /** The form's values: the typed name and the picked file, if any. */
  datatype Values = Values(userName: string, file: Option<File>)

  /** One validation message per failed check. */
  datatype Issue = NameTooShort | NotAFile | FileTooLarge | FileTypeNotAccepted

  /** The form's default values: an empty name and no file. */
  const Defaults := Values("", None)

  /** `z.string().min(2)`. */
  function NameIssues(name: string): seq<Issue>
  {
    if |name| < 2 then [NameTooShort] else []
  }

  /** The file field: `z.any().optional()` where `File` does not exist;
      otherwise `z.instanceof(File)`, whose failure stops the field, followed by
      the two refinements, which are both checked. */
  function FileIssues(file: Option<File>, fileSupported: bool, limits: Limits): seq<Issue>
  {
    if !fileSupported then []
    else match file
      case None => [NotAFile]
      case Some(f) =>
        (if f.size <= limits.maxFileSize then [] else [FileTooLarge])
        + (if f.mimeType in limits.acceptedImageTypes then [] else [FileTypeNotAccepted])
  }

  /** `formSchema` applied to the form's values: the list of issues it reports. */
  function Validate(v: Values, fileSupported: bool, limits: Limits): (issues: seq<Issue>)
    ensures NameTooShort in issues <==> |v.userName| < 2
    ensures NotAFile in issues <==> fileSupported && v.file.None?
    ensures FileTooLarge in issues <==>
      fileSupported && v.file.Some? && v.file.value.size > limits.maxFileSize
    ensures FileTypeNotAccepted in issues <==>
      fileSupported && v.file.Some? && v.file.value.mimeType !in limits.acceptedImageTypes
    ensures issues == [] <==>
      && |v.userName| >= 2
      && (fileSupported ==>
            && v.file.Some?
            && v.file.value.size <= limits.maxFileSize
            && v.file.value.mimeType in limits.acceptedImageTypes)
  {
    NameIssues(v.userName) + FileIssues(v.file, fileSupported, limits)
  }

  /** The browser-side calls a submit makes, in order. */
  datatype ClientEffect = CallUpdateUser(formData: FormData, userId: string) | Navigate(path: string)

  /** The FormData a valid submit builds: the file first, then the name. */
  function SubmitFormData(v: Values): FormData
  {
    [("file", AppendValue(v.file)), ("userName", Text(v.userName))]
  }

  /** `onSubmit`: nothing when validation fails; otherwise `updateUser` with the
      validated values, then navigation to /home. */
  function OnSubmit(v: Values, fileSupported: bool, limits: Limits, userId: string): (effects: seq<ClientEffect>)
    ensures effects == [] <==> Validate(v, fileSupported, limits) != []
    ensures effects != [] ==>
      && |effects| == 2
      && effects[0].CallUpdateUser?
      && effects[0].userId == userId
      && Get(effects[0].formData, "userName") == Some(Text(v.userName))
      && Get(effects[0].formData, "file") == Some(AppendValue(v.file))
      && effects[1] == Navigate("/home")
  {
    if Validate(v, fileSupported, limits) != [] then []
    else [CallUpdateUser(SubmitFormData(v), userId), Navigate("/home")]
  }

  /** The default values fail validation, so submitting the untouched form
      never calls `updateUser`. */
  lemma DefaultsNeverSubmit(fileSupported: bool, limits: Limits, userId: string)
    ensures NameTooShort in Validate(Defaults, fileSupported, limits)
    ensures OnSubmit(Defaults, fileSupported, limits, userId) == []
  {
  }

  /** Where `File` exists, an accepted submit makes `updateUser` upload the
      picked file and send the typed name in its PUT. */
  lemma AcceptedSubmitUploadsAndRenames(v: Values, limits: Limits, userId: string, uploadKey: string)
    requires Validate(v, true, limits) == []
    ensures var effects := UserActions.UpdateUserEffects(Get(SubmitFormData(v), "file"), Get(SubmitFormData(v), "userName"), userId, uploadKey);
      && effects[0] == Upload(Some(FileEntry(v.file.value)), UserImage)
      && effects[1] == Put(userId, UserActions.UpdateRecord(Some(Text(v.userName)), Some(uploadKey)))
      && effects[1].fields["name"] == Text(v.userName)
  {
  }

  /** Where `File` does not exist and no file was picked, the FormData carries
      the string "undefined", which `updateUser` does not upload: only the name
      is sent. */
  lemma UnpickedFileIsNotUploaded(v: Values, limits: Limits, userId: string, uploadKey: string)
    requires Validate(v, false, limits) == []
    requires v.file.None?
    ensures var effects := UserActions.UpdateUserEffects(Get(SubmitFormData(v), "file"), Get(SubmitFormData(v), "userName"), userId, uploadKey);
      && effects == [
           Put(userId, map["name" := Text(v.userName)]),
           RevalidateTag(UserActions.UserTag(userId)),
           RevalidateTag(UserActions.CurrentUserTag)]
  {
  }
}
