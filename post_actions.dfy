/** The server actions on posts: `createPost`, which splits the hashtag field on
    single spaces, uploads the image, creates the post and redirects, and
    `deletePost`, which deletes a post and revalidates its owner's post list. */
module PostActions {
  import opened Web

  /** `tags.join(" ")`. */
  function Join(tags: seq<string>): string
  {
    if |tags| == 0 then ""
    else if |tags| == 1 then tags[0]
    else tags[0] + " " + Join(tags[1..])
  }

  /** The number of space characters in `s`. */
  function CountSpaces(s: string): nat
  {
    if |s| == 0 then 0
    else (if s[0] == ' ' then 1 else 0) + CountSpaces(s[1..])
  }

  /** `s.split(" ")`: every space separates two tags; empty tags (from an
      empty input, from leading, trailing or repeated spaces) are kept. */
  function Split(s: string): (tags: seq<string>)
    ensures |tags| == CountSpaces(s) + 1
    ensures forall i :: 0 <= i < |tags| ==> ' ' !in tags[i]
    ensures Join(tags) == s
    decreases |s|
  {
    if |s| == 0 then [""]
    else
      var rest := Split(s[1..]);
      assert s == [s[0]] + s[1..];
      if s[0] == ' ' then
        assert Join([""] + rest) == " " + Join(rest) by {
          assert ([""] + rest)[1..] == rest;
        }
        [""] + rest
      else
        var tags := [[s[0]] + rest[0]] + rest[1..];
        assert tags[1..] == rest[1..];
        assert Join(tags) == [s[0]] + Join(rest);
        tags
  }

  /** Splitting a tag with no space in front of any text puts the tag in front
      of the first piece. */
  lemma {:induction false} SplitPrefix(t: string, rest: string)
    requires ' ' !in t
    ensures Split(t + rest) == [t + Split(rest)[0]] + Split(rest)[1..]
    decreases |t|
  {
    if |t| == 0 {
      var r := Split(rest);
      assert t + rest == rest;
      assert t + r[0] == r[0];
      assert [r[0]] + r[1..] == r;
    } else {
      var s, r := t + rest, Split(rest);
      assert s[0] == t[0] && t[0] != ' ';
      assert s[1..] == t[1..] + rest;
      var inner := Split(t[1..] + rest);
      assert Split(s) == [[t[0]] + inner[0]] + inner[1..];
      SplitPrefix(t[1..], rest);
      assert inner == [t[1..] + r[0]] + r[1..];
      assert [t[0]] + (t[1..] + r[0]) == t + r[0];
    }
  }

  /** The other half of the round trip: joining a non-empty list of tags that
      contain no space and splitting the result gives the list back. */
  lemma {:induction false} SplitJoin(tags: seq<string>)
    requires |tags| >= 1
    requires forall i :: 0 <= i < |tags| ==> ' ' !in tags[i]
    ensures Split(Join(tags)) == tags
    decreases |tags|
  {
    if |tags| == 1 {
      SplitPrefix(tags[0], "");
      assert tags[0] + "" == tags[0];
    } else {
      SplitJoin(tags[1..]);
      var rest := " " + Join(tags[1..]);
      SplitPrefix(tags[0], rest);
      assert rest[1..] == Join(tags[1..]);
      assert Split(rest) == [""] + tags[1..];
      assert tags[0] + rest == Join(tags);
      assert tags[0] + Split(rest)[0] == tags[0];
      assert [tags[0]] + tags[1..] == tags;
    }
  }

  /** Empty input and stray spaces yield empty tags, which are not filtered out. */
  lemma SplitKeepsEmptyTags()
    ensures Split("") == [""]
    ensures Split(" a  b ") == ["", "a", "", "b", ""]
  {
    var tags := ["", "a", "", "b", ""];
    assert Join(tags[3..]) == "b" + " " + "" by { assert tags[3..][1..] == tags[4..]; }
    assert Join(tags[2..]) == "" + " " + "b " by { assert tags[2..][1..] == tags[3..]; }
    assert Join(tags[1..]) == "a" + " " + " b " by { assert tags[1..][1..] == tags[2..]; }
    assert Join(tags) == "" + " " + "a  b ";
    SplitJoin(tags);
  }

  function HomePath(userId: string): string { "/" + userId + "/home" }

  function PostsTag(userId: string): string { "/users/" + userId + "/posts" }

  /** `hashTag.split` can be called: the hashTag entry is present and a string. */
  predicate HasTextHashTag(fd: FormData)
  {
    Get(fd, "hashTag").Some? && Get(fd, "hashTag").value.Text?
  }

  /** The action gets as far as the create request: the hashTag entry is a
      string and there is a file entry to upload. */
  predicate ReachesCreate(fd: FormData)
  {
    HasTextHashTag(fd) && Get(fd, "file").Some?
  }

  /** `createPost(formData, userId)`, with `uploadKey` standing for what the
      upload returns and `create` for how the create request ends. The string
      fields are passed on as `formData.get` gives them. The action throws
      before any call when the hashTag entry is missing or a File; at the
      upload, which reads the file's name, when there is no file entry; and
      after the create request, without redirecting, when that request
      rejects. */
  function CreatePost(fd: FormData, userId: string, uploadKey: string, create: Outcome): (r: Run)
    ensures r.Threw? <==> !ReachesCreate(fd) || create == Rejects
    ensures !HasTextHashTag(fd) ==> r == Threw([])
    ensures HasTextHashTag(fd) && Get(fd, "file").None? ==> r == Threw([Upload(None, PostImage)])
    ensures ReachesCreate(fd) ==>
      && |Calls(r)| >= 2
      && Calls(r)[0] == Upload(Get(fd, "file"), PostImage)
      && Calls(r)[1].CreatePostRequest?
    ensures ReachesCreate(fd) ==>
      var p := Calls(r)[1].payload;
      && p.imageName == Get(fd, "imageName")
      && p.imageAge == Get(fd, "imageAge")
      && p.prompt == Get(fd, "prompt")
      && |p.hashTags| == CountSpaces(Get(fd, "hashTag").value.text) + 1
      && Join(p.hashTags) == Get(fd, "hashTag").value.text
      && (forall i :: 0 <= i < |p.hashTags| ==> ' ' !in p.hashTags[i])
      && p.imageS3Key == uploadKey
    ensures r.Done? ==> |r.effects| == 3 && r.effects[2] == Redirect(HomePath(userId))
    ensures r.Threw? && ReachesCreate(fd) ==> |r.effectsBefore| == 2
    ensures r.Done? ==> forall i, j :: 0 <= i < j < |r.effects| ==> Stage(r.effects[i]) < Stage(r.effects[j])
  {
    match Get(fd, "hashTag")
    case Some(Text(hashTag)) =>
      var hashTags := Split(hashTag);
      var upload := Upload(Get(fd, "file"), PostImage);
      if Get(fd, "file").None? then Threw([upload])
      else
        var payload := PostPayload(Get(fd, "imageName"), Get(fd, "imageAge"), Get(fd, "prompt"), hashTags, uploadKey);
        var requested := [upload, CreatePostRequest(payload)];
        if create == Rejects then Threw(requested)
        else Done(requested + [Redirect(HomePath(userId))])
    case _ => Threw([])
  }

  /** An empty hashTag field is sent as one empty tag, not as no tags. */
  lemma EmptyHashTagSendsOneEmptyTag(fd: FormData, userId: string, uploadKey: string, create: Outcome)
    requires ReachesCreate(fd) && Get(fd, "hashTag").value.text == ""
    ensures Calls(CreatePost(fd, userId, uploadKey, create))[1].payload.hashTags == [""]
  {
    var tags := Calls(CreatePost(fd, userId, uploadKey, create))[1].payload.hashTags;
    assert |tags| == 1;
    assert tags[0] == Join(tags);
  }

  /** `deletePost(postId, userId)`, with `delete` for how the delete request
      ends: the delete request for `postId`, then, once it has resolved,
      exactly one revalidation, of the owner's post list. */
  function DeletePost(postId: string, userId: string, delete: Outcome): (r: Run)
    ensures r.Threw? <==> delete == Rejects
    ensures r.Threw? ==> r.effectsBefore == [DeletePostRequest(postId)]
    ensures r.Done? ==> r.effects == [DeletePostRequest(postId), RevalidateTag(PostsTag(userId))]
    ensures r.Done? ==> forall i, j :: 0 <= i < j < |r.effects| ==> Stage(r.effects[i]) < Stage(r.effects[j])
  {
    var requested := [DeletePostRequest(postId)];
    if delete == Rejects then Threw(requested)
    else Done(requested + [RevalidateTag(PostsTag(userId))])
  }
}
