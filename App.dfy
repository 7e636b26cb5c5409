/**
 * The root component: the view-state controller, the in-memory post store it owns,
 * and the two aggregates the analytics panel shows over that store.
 *
 * The handlers are specified by a pure transition function `Step` over `AppState`;
 * the class `AppController` holds the four pieces of component state as fields and
 * each of its methods performs one handler, ensuring the new state is `Step` of the old.
 */
module App {
  import opened Types
  import opened Constants

  // ---------------------------------------------------------------------------
  // Analytics aggregates over the post store

  /** The "Total Posts" figure: the length of the store. */
  function TotalPosts(posts: seq<BlogPost>): nat {
    |posts|
  }

  /** Reference definition of the sum of the view counters, first post first. */
  function SumViews(posts: seq<BlogPost>): int {
    if posts == [] then 0 else posts[0].views + SumViews(posts[1..])
  }

  /** `posts.reduce((acc, curr) => acc + curr.views, acc)`: a left fold from accumulator `acc`. */
  function ReduceViews(acc: int, posts: seq<BlogPost>): (r: int)
    ensures r == acc + SumViews(posts)
    decreases |posts|
  {
    if posts == [] then acc else ReduceViews(acc + posts[0].views, posts[1..])
  }

  /** The "Total Views" figure: the fold started from 0, which equals the sum of all counters. */
  function TotalViews(posts: seq<BlogPost>): (r: int)
    ensures r == SumViews(posts)
  {
    ReduceViews(0, posts)
  }

  /** Non-negative counters give a non-negative total. */
  lemma {:induction false} TotalViewsNonNegative(posts: seq<BlogPost>)
    requires forall i :: 0 <= i < |posts| ==> posts[i].views >= 0
    ensures TotalViews(posts) >= 0
  {
    if posts != [] {
      TotalViewsNonNegative(posts[1..]);
    }
  }

  /** The total over a concatenation is the sum of the totals. */
  lemma {:induction false} TotalViewsAppend(a: seq<BlogPost>, b: seq<BlogPost>)
    ensures TotalViews(a + b) == TotalViews(a) + TotalViews(b)
  {
    if a == [] {
      assert a + b == b;
    } else {
      assert (a + b)[1..] == a[1..] + b;
      TotalViewsAppend(a[1..], b);
    }
  }

  /** Prepending a post adds one to the count and its counter to the total; a fresh post (0 views) leaves the total alone. */
  lemma PrependAggregates(p: BlogPost, posts: seq<BlogPost>)
    ensures TotalPosts([p] + posts) == TotalPosts(posts) + 1
    ensures TotalViews([p] + posts) == TotalViews(posts) + p.views
    ensures p.views == 0 ==> TotalViews([p] + posts) == TotalViews(posts)
  {
    assert ([p] + posts)[1..] == posts;
  }

  /** The seed store shows 3 posts and 5530 views. */
  lemma SeedAggregates()
    ensures TotalPosts(InitialPosts()) == 3
    ensures TotalViews(InitialPosts()) == 5530
  {
    var s := InitialPosts();
    assert s[1..][1..][1..] == [];
  }

  // ---------------------------------------------------------------------------
  // The view-state machine as values

  /** The four pieces of component state. */
  datatype AppState = AppState(
    currentView: AppView,
    posts: seq<BlogPost>,
    selectedPost: Option<BlogPost>,
    isMenuOpen: bool)

  /** The user actions and callbacks that change the component state. */
  datatype Event =
    | PostClicked(post: BlogPost)        // a feed card's onClick
    | PostCreated(post: BlogPost)        // the create form's onPostCreated
    | NavigatedTo(view: AppView)         // a header, menu, bottom-bar or floating button
    | MenuToggled                        // the mobile menu button
    | BackPressed                        // the detail view's onBack
    | CreateCancelled                    // the create form's onCancel

  /** The state on mount: the feed, the seed posts, nothing selected, the menu closed. */
  function Initial(): (s: AppState)
    ensures SelectionInvariant(s) && SelectionStored(s)
  {
    AppState(Home, InitialPosts(), None, false)
  }

  /**
   * The effect of one event, field by field as the handler sets it. Only a created post
   * changes the store, by prepending; only a click changes the selection.
   */
  function Step(s: AppState, e: Event): (r: AppState)
    ensures r.posts == if e.PostCreated? then [e.post] + s.posts else s.posts
    ensures r.selectedPost == if e.PostClicked? then Some(e.post) else s.selectedPost
  {
    match e
    case PostClicked(p) => s.(selectedPost := Some(p), currentView := ReadPost)
    case PostCreated(p) => s.(posts := [p] + s.posts, currentView := Home)
    case NavigatedTo(v) => s.(currentView := v, isMenuOpen := false)
    case MenuToggled => s.(isMenuOpen := !s.isMenuOpen)
    case BackPressed => s.(currentView := Home)
    case CreateCancelled => s.(currentView := Home)
  }

  /** The state after a sequence of events, oldest first. */
  function Run(s: AppState, events: seq<Event>): AppState
    decreases |events|
  {
    if events == [] then s else Run(Step(s, events[0]), events[1..])
  }

  /** The detail view is only entered with a post to show. */
  predicate SelectionInvariant(s: AppState) {
    s.currentView == ReadPost ==> s.selectedPost.Some?
  }

  /** The selected post, if any, is one of the posts in the store. */
  predicate SelectionStored(s: AppState) {
    s.selectedPost.Some? ==> s.selectedPost.value in s.posts
  }

  /** Every `navigateTo` call site passes the feed, the analytics panel or the create form. */
  predicate FromUi(e: Event) {
    !(e.NavigatedTo? && e.view == ReadPost)
  }

  /**
   * The control that raises `e` is on screen in state `s`. The create callback is not tied
   * to a screen: a request started on the form may settle after the user has navigated away.
   */
  predicate Enabled(s: AppState, e: Event) {
    match e
    case PostClicked(p) => s.currentView == Home && p in s.posts
    case PostCreated(_) => true
    case NavigatedTo(v) => v != ReadPost
    case MenuToggled => true
    case BackPressed => s.currentView == ReadPost && s.selectedPost.Some?
    case CreateCancelled => s.currentView == CreatePost
  }

  /** Each event of the sequence is raised by a control on screen when it fires. */
  predicate EnabledRun(s: AppState, events: seq<Event>)
    decreases |events|
  {
    events == [] || (Enabled(s, events[0]) && EnabledRun(Step(s, events[0]), events[1..]))
  }

  /** The posts the events create, newest first. */
  function CreatedPosts(events: seq<Event>): seq<BlogPost>
    decreases |events|
  {
    if events == [] then []
    else CreatedPosts(events[1..]) + (if events[0].PostCreated? then [events[0].post] else [])
  }

  /** A click selects the post and opens the detail view; the store and the menu stay as they were. */
  lemma PostClickSelects(s: AppState, p: BlogPost)
    ensures Step(s, PostClicked(p)) == AppState(ReadPost, s.posts, Some(p), s.isMenuOpen)
  {
  }

  /**
   * Creating a post puts it in front of the store: one more post, every old post moved
   * up one place unchanged, back on the feed, selection and menu untouched.
   */
  lemma CreatePrepends(s: AppState, p: BlogPost)
    ensures var t := Step(s, PostCreated(p));
      && |t.posts| == |s.posts| + 1 && t.posts[0] == p
      && (forall i :: 0 <= i < |s.posts| ==> t.posts[i + 1] == s.posts[i])
      && t.currentView == Home && t.selectedPost == s.selectedPost && t.isMenuOpen == s.isMenuOpen
  {
  }

  /** Navigation switches the view and closes the menu; it does not clear the selection. */
  lemma NavigateKeepsSelection(s: AppState, v: AppView)
    ensures Step(s, NavigatedTo(v)) == AppState(v, s.posts, s.selectedPost, false)
  {
  }

  /** Toggling the menu twice restores it; nothing else changes. */
  lemma MenuToggleTwice(s: AppState)
    ensures Step(s, MenuToggled).isMenuOpen == !s.isMenuOpen
    ensures Step(Step(s, MenuToggled), MenuToggled) == s
  {
  }

  /** Back and cancel return to the feed without touching the store. */
  lemma BackAndCancelGoHome(s: AppState)
    ensures Step(s, BackPressed) == s.(currentView := Home)
    ensures Step(s, CreateCancelled) == s.(currentView := Home)
  {
  }

  /** Only a click, or a navigation to the detail view itself, can enter the detail view. */
  lemma EnteringReadPost(s: AppState, e: Event)
    requires s.currentView != ReadPost && Step(s, e).currentView == ReadPost
    ensures e.PostClicked? || e == NavigatedTo(ReadPost)
  {
  }

  /** Every control on screen raises an event some `navigateTo` call site could. */
  lemma EnabledIsFromUi(s: AppState, e: Event)
    requires Enabled(s, e)
    ensures FromUi(e)
  {
  }

  /** A sequence raised by on-screen controls consists of events the UI can raise. */
  lemma {:induction false} EnabledRunIsFromUi(s: AppState, events: seq<Event>)
    requires EnabledRun(s, events)
    ensures forall e :: e in events ==> FromUi(e)
    decreases |events|
  {
    if events != [] {
      EnabledIsFromUi(s, events[0]);
      EnabledRunIsFromUi(Step(s, events[0]), events[1..]);
      assert forall e :: e in events ==> e == events[0] || e in events[1..];
    }
  }

  /** Events from the UI keep the detail view backed by a selected post. */
  lemma {:induction false} RunKeepsSelectionInvariant(s: AppState, events: seq<Event>)
    requires SelectionInvariant(s)
    requires forall e :: e in events ==> FromUi(e)
    ensures SelectionInvariant(Run(s, events))
    decreases |events|
  {
    if events != [] {
      assert events[0] in events;
      RunKeepsSelectionInvariant(Step(s, events[0]), events[1..]);
    }
  }

  /** In every state reachable from the initial one, the detail view has a post to show. */
  lemma ReachableSelectionInvariant(events: seq<Event>)
    requires forall e :: e in events ==> FromUi(e)
    ensures SelectionInvariant(Run(Initial(), events))
  {
    RunKeepsSelectionInvariant(Initial(), events);
  }

  /** Events raised by on-screen controls keep the selected post inside the store. */
  lemma {:induction false} RunKeepsSelectionStored(s: AppState, events: seq<Event>)
    requires SelectionStored(s)
    requires EnabledRun(s, events)
    ensures SelectionStored(Run(s, events))
    decreases |events|
  {
    if events != [] {
      var t := Step(s, events[0]);
      if events[0].PostCreated? {
        assert s.posts <= t.posts[1..];
      }
      assert SelectionStored(t);
      RunKeepsSelectionStored(t, events[1..]);
    }
  }

  /** After any events the store is the created posts, newest first, above the posts it started with. */
  lemma {:induction false} RunPosts(s: AppState, events: seq<Event>)
    ensures Run(s, events).posts == CreatedPosts(events) + s.posts
    decreases |events|
  {
    if events != [] {
      RunPosts(Step(s, events[0]), events[1..]);
    }
  }

  /**
   * The store in any reachable state: the created posts above the seed posts in their
   * original order, so the count is the seed count plus the creations, and the total
   * views are the seed's 5530 plus the created posts' counters.
   */
  lemma ReachablePosts(events: seq<Event>)
    ensures Run(Initial(), events).posts == CreatedPosts(events) + InitialPosts()
    ensures TotalPosts(Run(Initial(), events).posts) == |CreatedPosts(events)| + 3
    ensures TotalViews(Run(Initial(), events).posts) == TotalViews(CreatedPosts(events)) + 5530
  {
    RunPosts(Initial(), events);
    TotalViewsAppend(CreatedPosts(events), InitialPosts());
  }

  /**
   * In every state reached through on-screen controls, the selected post is in the store,
   * and the detail view has a post to show.
   */
  lemma ReachableSelectionStored(events: seq<Event>)
    requires EnabledRun(Initial(), events)
    ensures SelectionStored(Run(Initial(), events))
    ensures SelectionInvariant(Run(Initial(), events))
  {
    RunKeepsSelectionStored(Initial(), events);
    EnabledRunIsFromUi(Initial(), events);
    ReachableSelectionInvariant(events);
  }

  /**
   * From the seed: open the form, create one post with no views. The store then has four
   * posts, the new one first and seed post "3" last, and still 5530 views in total.
   */
  lemma CreateOneScenario(p: BlogPost)
    requires p.views == 0
    ensures EnabledRun(Initial(), [NavigatedTo(CreatePost), PostCreated(p)])
    ensures var t := Run(Initial(), [NavigatedTo(CreatePost), PostCreated(p)]);
      && |t.posts| == 4 && t.posts[0] == p && t.posts[3].id == "3"
      && t.currentView == Home && TotalViews(t.posts) == 5530
  {
    var events := [NavigatedTo(CreatePost), PostCreated(p)];
    var s1 := Step(Initial(), events[0]);
    var s2 := Step(s1, events[1]);
    assert events[1..][1..] == [];
    assert Run(s2, []) == s2;
    assert Run(Initial(), events) == s2;
    assert s2.posts == [p] + InitialPosts();
    PrependAggregates(p, InitialPosts());
    SeedAggregates();
  }

  /** From the seed: open the form and cancel it. The store is untouched and the feed is shown. */
  lemma CancelScenario()
    ensures EnabledRun(Initial(), [NavigatedTo(CreatePost), CreateCancelled])
    ensures var t := Run(Initial(), [NavigatedTo(CreatePost), CreateCancelled]);
      t.posts == InitialPosts() && t.currentView == Home
  {
    var events := [NavigatedTo(CreatePost), CreateCancelled];
    var s1 := Step(Initial(), events[0]);
    var s2 := Step(s1, events[1]);
    assert events[1..][1..] == [];
    assert Run(s2, []) == s2;
    assert Run(Initial(), events) == s2;
  }

  // ---------------------------------------------------------------------------
  // The component itself

  /** The root component's state, updated in place by its handlers. */
  class AppController {
    var currentView: AppView
    var posts: seq<BlogPost>
    var selectedPost: Option<BlogPost>
    var isMenuOpen: bool

    /** The fields as one value. */
    function State(): AppState
      reads this
    {
      AppState(currentView, posts, selectedPost, isMenuOpen)
    }

    /** The component invariant: the detail view always has a post to show. */
    ghost predicate Valid()
      reads this
    {
      SelectionInvariant(State())
    }

    /** Mounting: the feed, the seed posts, no selection, the menu closed. */
    constructor ()
      ensures Valid()
      ensures currentView == Home && posts == InitialPosts() && selectedPost == None && !isMenuOpen
      ensures State() == Initial()
    {
      currentView := Home;
      posts := InitialPosts();
      selectedPost := None;
      isMenuOpen := false;
    }

    /** `handlePostClick`: select the post and open the detail view. */
    method HandlePostClick(post: BlogPost)
      requires Valid()
      modifies this
      ensures Valid()
      ensures selectedPost == Some(post) && currentView == ReadPost
      ensures posts == old(posts) && isMenuOpen == old(isMenuOpen)
      ensures State() == Step(old(State()), PostClicked(post))
    {
      selectedPost := Some(post);
      currentView := ReadPost;
    }

    /** `handleCreatePost`: put the new post in front of the store and show the feed. */
    method HandleCreatePost(newPost: BlogPost)
      requires Valid()
      modifies this
      ensures Valid()
      ensures posts == [newPost] + old(posts) && currentView == Home
      ensures selectedPost == old(selectedPost) && isMenuOpen == old(isMenuOpen)
      ensures State() == Step(old(State()), PostCreated(newPost))
    {
      posts := [newPost] + posts;
      currentView := Home;
    }

    /** `navigateTo`: switch the view and close the menu; the selection is kept. */
    method NavigateTo(view: AppView)
      requires Valid()
      requires view != ReadPost
      modifies this
      ensures Valid()
      ensures currentView == view && !isMenuOpen
      ensures posts == old(posts) && selectedPost == old(selectedPost)
      ensures State() == Step(old(State()), NavigatedTo(view))
    {
      currentView := view;
      isMenuOpen := false;
    }

    /** The mobile menu button: flip the menu. */
    method ToggleMenu()
      requires Valid()
      modifies this
      ensures Valid()
      ensures isMenuOpen == !old(isMenuOpen)
      ensures currentView == old(currentView) && posts == old(posts) && selectedPost == old(selectedPost)
      ensures State() == Step(old(State()), MenuToggled)
    {
      isMenuOpen := !isMenuOpen;
    }

    /** The detail view's back button: show the feed. */
    method Back()
      requires Valid()
      modifies this
      ensures Valid()
      ensures currentView == Home
      ensures posts == old(posts) && selectedPost == old(selectedPost) && isMenuOpen == old(isMenuOpen)
      ensures State() == Step(old(State()), BackPressed)
    {
      currentView := Home;
    }

    /** The create form's cancel: show the feed, store untouched. */
    method Cancel()
      requires Valid()
      modifies this
      ensures Valid()
      ensures currentView == Home
      ensures posts == old(posts) && selectedPost == old(selectedPost) && isMenuOpen == old(isMenuOpen)
      ensures State() == Step(old(State()), CreateCancelled)
    {
      currentView := Home;
    }

    /** Which screen is rendered: the detail view only when a post is selected. */
    method RenderedView() returns (v: Option<AppView>)
      requires Valid()
      ensures v == Some(currentView)
    {
      if currentView == ReadPost && selectedPost.None? {
        v := None;
      } else {
        v := Some(currentView);
      }
    }
  }
}
