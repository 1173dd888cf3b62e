/** Values shared by the client components and the server actions: optional
    values, picked files, the browser's FormData and JavaScript truthiness. */
module Web {

  datatype Option<+T> = None | Some(value: T)

  /** A file picked in the browser: its name, its size in bytes and its MIME type. */
  datatype File = File(name: string, size: int, mimeType: string)

  /** A FormData entry. A browser keeps a File as it is and turns every other
      appended value into a string (`undefined` becomes "undefined"). */
  datatype Entry = FileEntry(file: File) | Text(text: string)

  /** FormData as its list of (name, entry) pairs, in the order they were appended. */
  type FormData = seq<(string, Entry)>

  /** The two S3 image kinds an upload is filed under. */
  datatype ImageKind = UserImage | PostImage

  /** `formData.append(name, value)` for a value that is a File or `undefined`. */
  function AppendValue(v: Option<File>): (e: Entry)
    ensures v.Some? <==> e.FileEntry?
    ensures v.Some? ==> e.file == v.value
    ensures v.None? ==> e == Text("undefined")
  {
    match v
    case Some(f) => FileEntry(f)
    case None => Text("undefined")
  }

  /** `formData.get(name)`: the first entry appended under `name`, or null. */
  function Get(fd: FormData, name: string): (r: Option<Entry>)
    ensures r.None? <==> forall i :: 0 <= i < |fd| ==> fd[i].0 != name
    ensures r.Some? ==>
      exists i :: 0 <= i < |fd| && fd[i] == (name, r.value) && forall j :: 0 <= j < i ==> fd[j].0 != name
    decreases |fd|
  {
    if |fd| == 0 then None
    else if fd[0].0 == name then Some(fd[0].1)
    else
      var r := Get(fd[1..], name);
      assert forall i :: 1 <= i < |fd| ==> fd[i] == fd[1..][i - 1];
      assert r.Some? ==>
        exists i :: 0 <= i < |fd| && fd[i] == (name, r.value) && forall j :: 0 <= j < i ==> fd[j].0 != name
      by {
        if r.Some? {
          var k :| 0 <= k < |fd| - 1 && fd[1..][k] == (name, r.value) && forall j :: 0 <= j < k ==> fd[1..][j].0 != name;
          assert fd[k + 1] == (name, r.value);
          assert forall j :: 0 <= j < k + 1 ==> fd[j].0 != name;
        }
      }
      r
  }

  /** How an awaited server-side request ends. A Hono client call resolves
      with the response whatever its status; it rejects only when the request
      itself fails. */
  datatype Outcome = Resolves | Rejects

  /** The JSON body of the post-create request. */
  datatype PostPayload = PostPayload(
    imageName: Option<Entry>,
    imageAge: Option<Entry>,
    prompt: Option<Entry>,
    hashTags: seq<string>,
    imageS3Key: string)

  /** The calls the server actions make: an image upload, one of the three
      API requests, a cache revalidation or a redirect. */
  datatype Effect =
    | Upload(file: Option<Entry>, kind: ImageKind)
    | Put(id: string, fields: map<string, Entry>)
    | CreatePostRequest(payload: PostPayload)
    | DeletePostRequest(id: string)
    | RevalidateTag(tag: string)
    | Redirect(path: string)

  /** The order the actions keep: uploads first, then the API request, then
      the revalidations or the redirect that follow it. */
  function Stage(e: Effect): nat
  {
    match e
    case Upload(_, _) => 0
    case Put(_, _) => 1
    case CreatePostRequest(_) => 1
    case DeletePostRequest(_) => 1
    case RevalidateTag(_) => 2
    case Redirect(_) => 2
  }

  /** How a server action ends: it returns after its calls, or it throws after
      the calls it made before the throw. */
  datatype Run = Done(effects: seq<Effect>) | Threw(effectsBefore: seq<Effect>)

  /** The calls a run made, however it ended. */
  function Calls(r: Run): seq<Effect>
  {
    match r
    case Done(effects) => effects
    case Threw(effectsBefore) => effectsBefore
  }

  /** JavaScript truthiness of a `formData.get` result: null and "" are falsy,
      a File and every other string are truthy. */
  predicate Truthy(e: Option<Entry>)
  {
    match e
    case None => false
    case Some(FileEntry(_)) => true
    case Some(Text(s)) => s != ""
  }
}
