/** The swipe-card session of the home feed. Each feed tab ("recommend" and
    the following tab) keeps a card index and a pane (scroll) index in its own
    pair of shared atoms; each SwipeCards component adds a `noMoreCards` flag
    and the list of posts it loaded. Reacting to a card sends a like request
    and moves to the next card; passing the last card starts over at 0 and
    asks for a refetch. Requests and refetches are recorded, not performed. */
module SwipeSession {
  import opened Web

  datatype Tab = Recommend | Following

  function Other(t: Tab): Tab
  {
    if t == Recommend then Following else Recommend
  }

  /** The atoms a component uses: the recommend pair for "recommend", the
      following pair for any other tab value. */
  function TabOf(tabValue: string): (t: Tab)
    ensures t == Recommend <==> tabValue == "recommend"
  {
    if tabValue == "recommend" then Recommend else Following
  }

  datatype LikeType = Like | SuperLike | Unlike

  datatype Direction = Up | Down

  /** The fields of a feed post the session reads. */
  datatype Post = Post(
    id: string,
    authorId: string,
    imageName: string,
    imageAge: string,
    prompt: string,
    hashTags: seq<string>,
    superLikeCount: int)

  /** A like request as sent to the likes endpoint. */
  datatype LikeRequest = LikeRequest(postId: string, likeType: LikeType)

  /** Whether the awaited like request resolved or rejected. */
  datatype RequestOutcome = Completed | Rejected

  /** `posts[i]`: undefined outside the list. */
  function PostAt(posts: seq<Post>, i: int): (r: Option<Post>)
    ensures r.Some? <==> 0 <= i < |posts|
    ensures r.Some? ==> r.value == posts[i]
  {
    if 0 <= i < |posts| then Some(posts[i]) else None
  }

  /** `posts[currentIndex]?.id` when it is truthy: the post a reaction is about. */
  function ReactionTarget(posts: seq<Post>, i: int): (r: Option<string>)
    ensures r.Some? <==> 0 <= i < |posts| && posts[i].id != ""
    ensures r.Some? ==> r.value == posts[i].id
  {
    match PostAt(posts, i)
    case Some(p) => if p.id != "" then Some(p.id) else None
    case None => None
  }

  /** The outcome of `handleSetCurrentIndex(next)` over a list of `len` posts:
      the new index and whether `noMoreCards` is raised. */
  datatype Step = Step(index: int, raisesNoMoreCards: bool)

  /** `handleSetCurrentIndex` with all three of its branches, tested in its own order. */
  function IndexRule(next: int, len: int): Step
  {
    if next >= len then Step(0, true)
    else if next == len then Step(0, false)
    else Step(next, false)
  }

  /** The `nextIndex === posts.length` branch is never taken: the `>=` test
      before it already covers that case. */
  lemma EqualLengthBranchUnreachable(next: int, len: int)
    ensures IndexRule(next, len) == if next < len then Step(next, false) else Step(0, true)
  {
  }

  /** A reaction on the card at `i` moves one card on, or, from the last card,
      back to the first with `noMoreCards` raised; the index stays in the list. */
  lemma AdvanceFromCard(i: int, len: int)
    requires 0 <= i < len
    ensures i + 1 < len ==> IndexRule(i + 1, len) == Step(i + 1, false)
    ensures i + 1 == len ==> IndexRule(i + 1, len) == Step(0, true)
    ensures 0 <= IndexRule(i + 1, len).index < len
  {
  }

  /** `handleScroll(direction)`: no clamping. */
  function Scrolled(scroll: int, d: Direction): int
  {
    if d == Up then scroll - 1 else scroll + 1
  }

  /** Scrolling down then up comes back to the same pane. */
  lemma DownThenUpRestores(scroll: int)
    ensures Scrolled(Scrolled(scroll, Down), Up) == scroll
  {
  }

  /** On a wide screen the up button is hidden on pane 0 and the down button
      on pane 2. */
  predicate ButtonShown(scroll: int, d: Direction)
  {
    if d == Up then scroll != 0 else scroll != 2
  }

  /** The pane after a run of presses on the wide-screen scroll buttons: a
      press on a hidden button does nothing. */
  function PressButtons(scroll: int, presses: seq<Direction>): int
    decreases |presses|
  {
    if |presses| == 0 then scroll
    else
      var next := if ButtonShown(scroll, presses[0]) then Scrolled(scroll, presses[0]) else scroll;
      PressButtons(next, presses[1..])
  }

  /** Through the buttons, the pane index never leaves 0..2. */
  lemma {:induction false} ButtonsKeepPaneInRange(scroll: int, presses: seq<Direction>)
    requires 0 <= scroll <= 2
    ensures 0 <= PressButtons(scroll, presses) <= 2
    decreases |presses|
  {
    if |presses| > 0 {
      var next := if ButtonShown(scroll, presses[0]) then Scrolled(scroll, presses[0]) else scroll;
      ButtonsKeepPaneInRange(next, presses[1..]);
    }
  }

  /** What the component renders; `Thrown` is the error it throws for the
      nearest error boundary instead of rendering. */
  datatype View =
    | Thrown(message: string)
    | Skeleton
    | NoCard
    | Card(post: Post, isSuperLikePost: bool, scrollIndex: int)

  /** The render decision: the error when the fetch returned an error body,
      otherwise the skeleton while loading or before any posts arrived, the
      "no card" view when there is no post at the index (the empty list
      included), and otherwise the card at the index. */
  function Render(errorMessage: Option<string>, isLoading: bool, posts: Option<seq<Post>>, index: int, scroll: int): (v: View)
    ensures v.Thrown? <==> errorMessage.Some?
    ensures v.Thrown? ==> v.message == errorMessage.value
    ensures v.Skeleton? <==> errorMessage.None? && (isLoading || posts.None?)
    ensures v.NoCard? <==> errorMessage.None? && !isLoading && posts.Some? && !(0 <= index < |posts.value|)
    ensures posts.Some? && |posts.value| == 0 ==> !v.Card?
    ensures v.Card? ==>
      && posts.Some? && 0 <= index < |posts.value|
      && v.post == posts.value[index]
      && (v.isSuperLikePost <==> posts.value[index].superLikeCount > 0)
      && v.scrollIndex == scroll
  {
    if errorMessage.Some? then Thrown(errorMessage.value)
    else if isLoading || posts.None? then Skeleton
    else
      match PostAt(posts.value, index)
      case None => NoCard
      case Some(p) =>
        if |posts.value| == 0 then NoCard
        else Card(p, p.superLikeCount > 0, scroll)
  }

  /** The four atoms holding each tab's card index and pane index. */
  class TabAtoms {
    var recommendIndex: int
    var recommendScroll: int
    var followingIndex: int
    var followingScroll: int

    constructor ()
      ensures Index(Recommend) == 0 && Scroll(Recommend) == 0
      ensures Index(Following) == 0 && Scroll(Following) == 0
    {
      recommendIndex, recommendScroll := 0, 0;
      followingIndex, followingScroll := 0, 0;
    }

    function Index(t: Tab): int
      reads this
    {
      if t == Recommend then recommendIndex else followingIndex
    }

    function Scroll(t: Tab): int
      reads this
    {
      if t == Recommend then recommendScroll else followingScroll
    }

    method SetIndex(t: Tab, v: int)
      modifies this
      ensures Index(t) == v
      ensures Index(Other(t)) == old(Index(Other(t)))
      ensures Scroll(Recommend) == old(Scroll(Recommend)) && Scroll(Following) == old(Scroll(Following))
    {
      if t == Recommend { recommendIndex := v; } else { followingIndex := v; }
    }

    method SetScroll(t: Tab, v: int)
      modifies this
      ensures Scroll(t) == v
      ensures Scroll(Other(t)) == old(Scroll(Other(t)))
      ensures Index(Recommend) == old(Index(Recommend)) && Index(Following) == old(Index(Following))
    {
      if t == Recommend { recommendScroll := v; } else { followingScroll := v; }
    }
  }

  /** One SwipeCards component: the tab whose atoms it uses, its own
      `noMoreCards` flag, the fetch state (the posts, or the message of an
      error body), and the record of the like requests and refetches it has
      issued. */
  class SwipeCards {
    const tab: Tab
    const atoms: TabAtoms
    var noMoreCards: bool
    var isLoading: bool
    var posts: Option<seq<Post>>
    var errorMessage: Option<string>
    var likeRequests: seq<LikeRequest>
    var refetches: nat

    function CurrentIndex(): int
      reads this, atoms
    {
      atoms.Index(tab)
    }

    function CurrentScrollIndex(): int
      reads this, atoms
    {
      atoms.Scroll(tab)
    }

    function CurrentView(): View
      reads this, atoms
    {
      Render(errorMessage, isLoading, posts, CurrentIndex(), CurrentScrollIndex())
    }

    /** The other tab's atoms are untouched. */
    twostate predicate OtherTabUnchanged()
      reads this, atoms
    {
      && atoms.Index(Other(tab)) == old(atoms.Index(Other(tab)))
      && atoms.Scroll(Other(tab)) == old(atoms.Scroll(Other(tab)))
    }

    /** The component on mount: no posts yet, the first fetch in flight. */
    constructor (tabValue: string, atoms: TabAtoms)
      ensures tab == TabOf(tabValue) && this.atoms == atoms
      ensures !noMoreCards && isLoading && posts.None? && errorMessage.None?
      ensures likeRequests == [] && refetches == 0
      ensures CurrentView() == Skeleton
    {
      tab := TabOf(tabValue);
      this.atoms := atoms;
      noMoreCards := false;
      isLoading := true;
      posts := None;
      errorMessage := None;
      likeRequests := [];
      refetches := 0;
    }

    /** A fetch resolves with a list of posts: the list is replaced as it
        is, and neither index is adjusted to it; the skeleton gives way to a
        card or the "no card" view. */
    method ReceivePosts(newPosts: seq<Post>)
      modifies this`posts, this`isLoading, this`errorMessage
      ensures posts == Some(newPosts) && !isLoading && errorMessage.None?
      ensures CurrentView().Card? || CurrentView() == NoCard
      ensures noMoreCards == old(noMoreCards)
      ensures likeRequests == old(likeRequests) && refetches == old(refetches)
    {
      posts := Some(newPosts);
      errorMessage := None;
      isLoading := false;
    }

    /** A fetch resolves with an error body (`{ message }`, as the feed
        endpoints send with a 401): there are no posts, and the component
        throws the message instead of rendering. */
    method ReceiveErrorBody(message: string)
      modifies this`posts, this`isLoading, this`errorMessage
      ensures posts.None? && !isLoading && errorMessage == Some(message)
      ensures CurrentView() == Thrown(message)
      ensures noMoreCards == old(noMoreCards)
      ensures likeRequests == old(likeRequests) && refetches == old(refetches)
    {
      posts := None;
      errorMessage := Some(message);
      isLoading := false;
    }

    /** The effect on `noMoreCards`: when raised, request exactly one refetch
        and lower it again. */
    method NoMoreCardsEffect()
      modifies this`refetches, this`noMoreCards
      ensures !noMoreCards
      ensures refetches == old(refetches) + (if old(noMoreCards) then 1 else 0)
    {
      if noMoreCards {
        refetches := refetches + 1;
        noMoreCards := false;
      }
    }

    /** `handleSetCurrentIndex(next)`. */
    method HandleSetCurrentIndex(next: int)
      requires posts.Some?
      modifies this`noMoreCards, atoms
      ensures CurrentIndex() == IndexRule(next, |posts.value|).index
      ensures noMoreCards == (old(noMoreCards) || IndexRule(next, |posts.value|).raisesNoMoreCards)
      ensures CurrentScrollIndex() == old(CurrentScrollIndex())
      ensures OtherTabUnchanged()
    {
      if next >= |posts.value| {
        atoms.SetIndex(tab, 0);
        noMoreCards := true;
        return;
      }
      // `handleSetCurrentIndex`'s `next == posts.length` branch cannot be reached here
      // (EqualLengthBranchUnreachable).
      atoms.SetIndex(tab, next);
    }

    /** The state after a reaction of kind `likeType` whose request ended with
        `outcome`: with no post id at the index nothing happens; otherwise the
        request is recorded and, once it has completed, the pane goes back to 0
        and the index moves on (to 0, raising `noMoreCards`, from the last card). */
    twostate predicate Reacted(likeType: LikeType, outcome: RequestOutcome)
      requires old(posts).Some?
      reads this, atoms
    {
      var target := ReactionTarget(old(posts).value, old(CurrentIndex()));
      var len := |old(posts).value|;
      && posts == old(posts) && isLoading == old(isLoading) && refetches == old(refetches)
      && if target.None? then
           && likeRequests == old(likeRequests)
           && CurrentIndex() == old(CurrentIndex())
           && CurrentScrollIndex() == old(CurrentScrollIndex())
           && noMoreCards == old(noMoreCards)
         else
           && likeRequests == old(likeRequests) + [LikeRequest(target.value, likeType)]
           && if outcome == Rejected then
                && CurrentIndex() == old(CurrentIndex())
                && CurrentScrollIndex() == old(CurrentScrollIndex())
                && noMoreCards == old(noMoreCards)
              else
                && CurrentScrollIndex() == 0
                && 0 <= CurrentIndex() < len
                && (old(CurrentIndex()) + 1 < len ==>
                      CurrentIndex() == old(CurrentIndex()) + 1 && noMoreCards == old(noMoreCards))
                && (old(CurrentIndex()) + 1 == len ==> CurrentIndex() == 0 && noMoreCards)
    }

    /** The body the three reaction handlers share. */
    method React(likeType: LikeType, outcome: RequestOutcome)
      requires posts.Some?
      modifies this`likeRequests, this`noMoreCards, atoms
      ensures Reacted(likeType, outcome)
      ensures OtherTabUnchanged()
    {
      var postId := ReactionTarget(posts.value, CurrentIndex());
      if postId.None? {
        return;
      }
      likeRequests := likeRequests + [LikeRequest(postId.value, likeType)];
      if outcome == Rejected {
        return;
      }
      if CurrentScrollIndex() != 0 {
        atoms.SetScroll(tab, 0);
      }
      AdvanceFromCard(CurrentIndex(), |posts.value|);
      HandleSetCurrentIndex(CurrentIndex() + 1);
    }

    /** `handleLike`. */
    method HandleLike(outcome: RequestOutcome)
      requires posts.Some?
      modifies this`likeRequests, this`noMoreCards, atoms
      ensures Reacted(Like, outcome)
      ensures OtherTabUnchanged()
    {
      React(Like, outcome);
    }

    /** `handleSuperLike`. */
    method HandleSuperLike(outcome: RequestOutcome)
      requires posts.Some?
      modifies this`likeRequests, this`noMoreCards, atoms
      ensures Reacted(SuperLike, outcome)
      ensures OtherTabUnchanged()
    {
      React(SuperLike, outcome);
    }

    /** `handleNope`: the same reaction, sent as "unlike". */
    method HandleNope(outcome: RequestOutcome)
      requires posts.Some?
      modifies this`likeRequests, this`noMoreCards, atoms
      ensures Reacted(Unlike, outcome)
      ensures OtherTabUnchanged()
    {
      React(Unlike, outcome);
    }

    /** `handleReload`: a refetch and back to the first card. The reload
        button only exists while a card is shown, so the list is then non-empty
        and `noMoreCards` is left as it was. */
    method HandleReload()
      requires posts.Some?
      modifies this`refetches, this`noMoreCards, atoms
      ensures refetches == old(refetches) + 1
      ensures CurrentIndex() == 0
      ensures noMoreCards == (old(noMoreCards) || |posts.value| == 0)
      ensures old(CurrentView()).Card? ==> noMoreCards == old(noMoreCards)
      ensures CurrentScrollIndex() == old(CurrentScrollIndex())
      ensures posts == old(posts) && likeRequests == old(likeRequests)
      ensures OtherTabUnchanged()
    {
      refetches := refetches + 1;
      HandleSetCurrentIndex(0);
    }

    /** `handleScroll(direction)`: one pane up or down, unclamped. */
    method HandleScroll(d: Direction)
      modifies atoms
      ensures CurrentScrollIndex() == Scrolled(old(CurrentScrollIndex()), d)
      ensures CurrentIndex() == old(CurrentIndex())
      ensures OtherTabUnchanged()
    {
      atoms.SetScroll(tab, Scrolled(CurrentScrollIndex(), d));
    }
  }

  /** An error body first, which is thrown; then a three-card list, over
      which three reactions run: the last one starts over at the
      first card and raises `noMoreCards`; the effect then asks for one
      refetch and lowers the flag. A scroll down and up in between changes
      nothing. */
  method ThreeCardsScenario(p0: Post, p1: Post, p2: Post)
    requires p0.id != "" && p1.id != "" && p2.id != ""
  {
    var atoms := new TabAtoms();
    var cards := new SwipeCards("recommend", atoms);
    cards.ReceiveErrorBody("Unauthorized");
    assert cards.CurrentView() == Thrown("Unauthorized");
    cards.ReceivePosts([p0, p1, p2]);
    assert cards.CurrentView() == Card(p0, p0.superLikeCount > 0, 0);

    cards.HandleLike(Completed);
    assert cards.CurrentIndex() == 1;
    cards.HandleScroll(Down);
    cards.HandleScroll(Up);
    assert cards.CurrentScrollIndex() == 0;
    cards.HandleSuperLike(Completed);
    assert cards.CurrentIndex() == 2 && !cards.noMoreCards;
    cards.HandleNope(Completed);
    assert cards.CurrentIndex() == 0 && cards.noMoreCards;
    assert cards.likeRequests == [LikeRequest(p0.id, Like), LikeRequest(p1.id, SuperLike), LikeRequest(p2.id, Unlike)];

    cards.NoMoreCardsEffect();
    assert cards.refetches == 1 && !cards.noMoreCards;
    assert atoms.Index(Following) == 0;
  }
}
