/** The server action `updateUser`: upload the picked avatar when there is one,
    collect the changed fields into an update record, send the PUT only when
    the record has a field, then revalidate the user's cached pages. */
module UserActions {
  import opened Web

  function UserTag(userId: string): string { "/users/" + userId }

  const CurrentUserTag := "/current_user"

  /** `file && file !== "undefined"`: the form's file entry is uploaded when it
      is a File, or a string other than "" and "undefined". */
  predicate ShouldUpload(file: Option<Entry>)
  {
    Truthy(file) && file.value != Text("undefined")
  }

  /** The update record built from the userName entry and the upload key. */
  function UpdateRecord(userName: Option<Entry>, key: Option<string>): (m: map<string, Entry>)
    ensures m.Keys <= {"name", "imageS3Key"}
    ensures "name" in m <==> Truthy(userName)
    ensures "name" in m ==> m["name"] == userName.value
    ensures "imageS3Key" in m <==> key.Some? && key.value != ""
    ensures "imageS3Key" in m ==> m["imageS3Key"] == Text(key.value)
    ensures |m| > 0 <==> Truthy(userName) || (key.Some? && key.value != "")
  {
    var named := if Truthy(userName) then map["name" := userName.value] else map[];
    if key.Some? && key.value != "" then named["imageS3Key" := Text(key.value)] else named
  }

  /** `Object.keys(updateData).length > 0`: the PUT is sent when the userName
      is truthy or the upload returned a truthy key. */
  predicate SendsPut(file: Option<Entry>, userName: Option<Entry>, uploadKey: string)
  {
    Truthy(userName) || (ShouldUpload(file) && uploadKey != "")
  }

  /** The calls `updateUser(formData, userId)` makes when its PUT resolves,
      given the form's "file" and "userName" entries, with `uploadKey` standing
      for what the upload returns: an upload first when there is one, the PUT
      right before the revalidations when there is one, and the two
      revalidations last. */
  function UpdateUserEffects(file: Option<Entry>, userName: Option<Entry>, userId: string, uploadKey: string): (effects: seq<Effect>)
    ensures |effects| == (if ShouldUpload(file) then 1 else 0) + (if SendsPut(file, userName, uploadKey) then 1 else 0) + 2
    ensures ShouldUpload(file) ==> effects[0] == Upload(file, UserImage)
    ensures SendsPut(file, userName, uploadKey) ==>
      effects[|effects| - 3] == Put(userId, UpdateRecord(userName, if ShouldUpload(file) then Some(uploadKey) else None))
    ensures effects[|effects| - 2..] == [RevalidateTag(UserTag(userId)), RevalidateTag(CurrentUserTag)]
    ensures forall i :: 0 < i < |effects| - 1 ==> Stage(effects[i - 1]) < Stage(effects[i])
  {
    var uploads := ShouldUpload(file);
    var record := UpdateRecord(userName, if uploads then Some(uploadKey) else None);
    var byUser, current := RevalidateTag(UserTag(userId)), RevalidateTag(CurrentUserTag);
    if uploads && SendsPut(file, userName, uploadKey) then [Upload(file, UserImage), Put(userId, record), byUser, current]
    else if uploads then [Upload(file, UserImage), byUser, current]
    else if SendsPut(file, userName, uploadKey) then [Put(userId, record), byUser, current]
    else [byUser, current]
  }

  /** Both revalidations come after every other call. */
  lemma RevalidatesLast(file: Option<Entry>, userName: Option<Entry>, userId: string, uploadKey: string)
    ensures var effects := UpdateUserEffects(file, userName, userId, uploadKey);
      forall i :: 0 <= i < |effects| - 2 ==> !effects[i].RevalidateTag?
  {
  }

  /** `updateUser(formData, userId)` when its PUT, if sent, ends with
      `put`: a rejected PUT throws out of the action before either
      revalidation; without a PUT there is nothing to reject. */
  function UpdateUserRun(file: Option<Entry>, userName: Option<Entry>, userId: string, uploadKey: string, put: Outcome): (r: Run)
    ensures r.Threw? <==> put == Rejects && SendsPut(file, userName, uploadKey)
    ensures r.Done? ==> r.effects == UpdateUserEffects(file, userName, userId, uploadKey)
    ensures r.Threw? ==>
      && r.effectsBefore + [RevalidateTag(UserTag(userId)), RevalidateTag(CurrentUserTag)]
           == UpdateUserEffects(file, userName, userId, uploadKey)
      && r.effectsBefore[|r.effectsBefore| - 1].Put?
      && forall i :: 0 <= i < |r.effectsBefore| ==> !r.effectsBefore[i].RevalidateTag?
  {
    var effects := UpdateUserEffects(file, userName, userId, uploadKey);
    RevalidatesLast(file, userName, userId, uploadKey);
    if put == Rejects && SendsPut(file, userName, uploadKey) then
      var before := effects[..|effects| - 2];
      assert before + effects[|effects| - 2..] == effects;
      Threw(before)
    else Done(effects)
  }

  /** `updateUser` step by step: `key` is set by the upload, `updateData`
      starts empty and gains its fields one assignment at a time, and a
      rejected PUT ends the action where it stands. */
  method UpdateUser(fd: FormData, userId: string, uploadKey: string, put: Outcome) returns (r: Run)
    ensures r == UpdateUserRun(Get(fd, "file"), Get(fd, "userName"), userId, uploadKey, put)
  {
    var effects := [];
    var file := Get(fd, "file");
    var userName := Get(fd, "userName");
    var key: Option<string> := None;

    if Truthy(file) && file.value != Text("undefined") {
      effects := effects + [Upload(file, UserImage)];
      key := Some(uploadKey);
    }

    var updateData: map<string, Entry> := map[];
    if Truthy(userName) {
      updateData := updateData["name" := userName.value];
    }
    if key.Some? && key.value != "" {
      updateData := updateData["imageS3Key" := Text(key.value)];
    }
    assert updateData == UpdateRecord(userName, key);

    if |updateData| > 0 {
      effects := effects + [Put(userId, updateData)];
      if put == Rejects {
        ghost var resolved := UpdateUserEffects(file, userName, userId, uploadKey);
        assert resolved == effects + [RevalidateTag(UserTag(userId)), RevalidateTag(CurrentUserTag)];
        assert resolved[..|resolved| - 2] == effects;
        return Threw(effects);
      }
    }

    effects := effects + [RevalidateTag(UserTag(userId))];
    effects := effects + [RevalidateTag(CurrentUserTag)];
    assert effects == UpdateUserEffects(file, userName, userId, uploadKey);
    return Done(effects);
  }
}
