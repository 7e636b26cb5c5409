/**
 * The create-post form: its four pieces of state, the tone buttons, the enable
 * conditions of its two buttons, and the generate handler, which either hands one
 * freshly built post to the parent's `onPostCreated` or shows a fixed error message.
 *
 * The call to the content-generation service is one abstract outcome (`Generation`);
 * the clock reading, the formatted date and the random image seed are parameters.
 */
module CreatePost {
  import opened Types
  import opened Text
  import App

  /** The tone buttons, in display order. */
  const Tones: seq<string> := ["Informative", "Professional", "Humorous", "Casual", "Persuasive"]

  /** The tone selected when the form opens. */
  const DefaultTone: string := "Informative"

  /** The one message shown whatever made the generation fail. */
  const FailureMessage: string := "Failed to generate content. Please try again or check your API Key."

  /** Fixed fields of every generated post. */
  const DefaultAuthor: string := "AI Assistant"
  const DefaultReadTime: string := "3 min read"
  const ImageUrlPrefix: string := "https://picsum.photos/800/600?random="

  /** The outcome of one request to the generation service: the four schema fields, or an error. */
  datatype Generation =
    | Generated(title: string, excerpt: string, content: string, category: string)
    | GenerationFailed

  /** The placeholder image for a seed drawn from 0..999: the prefix followed by the seed in decimal. */
  function ImageUrl(seed: nat): (url: string)
    requires seed < 1000
    ensures |url| > |ImageUrlPrefix| && url[..|ImageUrlPrefix|] == ImageUrlPrefix
    ensures IsDigits(url[|ImageUrlPrefix|..]) && DecimalValue(url[|ImageUrlPrefix|..]) == seed
    ensures url[|ImageUrlPrefix|] == '0' ==> seed == 0 && url == ImageUrlPrefix + "0"
  {
    DecimalRoundTrip(seed);
    var url := ImageUrlPrefix + NatToDecimal(seed);
    assert url[|ImageUrlPrefix|..] == NatToDecimal(seed);
    url
  }

  /**
   * The post built from a successful generation: the four generated fields copied, the
   * fixed author, read time and zero views, the given date and image, and an id that is
   * the decimal rendering of the clock reading (so it reads back as that number).
   */
  function NewPost(g: Generation, timestamp: nat, date: string, imageSeed: nat): (p: BlogPost)
    requires g.Generated? && imageSeed < 1000
    ensures p.title == g.title && p.excerpt == g.excerpt && p.content == g.content && p.category == g.category
    ensures p.author == DefaultAuthor && p.readTime == DefaultReadTime && p.views == 0
    ensures p.date == date && p.imageUrl == ImageUrl(imageSeed)
    ensures p.id == NatToDecimal(timestamp) && DecimalValue(p.id) == timestamp
    ensures p.id[0] == '0' ==> timestamp == 0
  {
    DecimalRoundTrip(timestamp);
    BlogPost(
      NatToDecimal(timestamp), g.title, g.excerpt, g.content, DefaultAuthor,
      date, DefaultReadTime, g.category, ImageUrl(imageSeed), 0)
  }

  /** Posts generated at different clock readings have different ids. */
  lemma NewPostIdsDistinct(g1: Generation, t1: nat, d1: string, i1: nat,
                           g2: Generation, t2: nat, d2: string, i2: nat)
    requires g1.Generated? && i1 < 1000 && g2.Generated? && i2 < 1000
    ensures NewPost(g1, t1, d1, i1).id == NewPost(g2, t2, d2, i2).id <==> t1 == t2
  {
    DecimalInjective(t1, t2);
  }

  // ---------------------------------------------------------------------------
  // The form as values

  /** The four pieces of form state. */
  datatype FormState = FormState(topic: string, tone: string, isGenerating: bool, error: Option<string>)

  /** The form when it opens: empty topic, the default tone (the first offered one), idle, no error. */
  function InitialForm(): (s: FormState)
    ensures ToneOffered(s) && s.tone == Tones[0]
  {
    FormState("", DefaultTone, false, None)
  }

  /** The tone is one the buttons offer. */
  predicate ToneOffered(s: FormState) {
    s.tone in Tones
  }

  /** The Generate button is enabled exactly when the form is idle and the topic has a non-whitespace character. */
  function GenerateEnabled(s: FormState): (r: bool)
    ensures r <==> !s.isGenerating && !IsBlank(s.topic)
  {
    TrimEmptyIffBlank(s.topic);
    !(s.isGenerating || Trim(s.topic) == "")
  }

  /** The Cancel button is disabled while a generation is outstanding. */
  function CancelEnabled(s: FormState): bool {
    !s.isGenerating
  }

  /** The state while the request is outstanding: busy, previous error cleared. */
  function Begin(s: FormState): FormState {
    s.(isGenerating := true, error := None)
  }

  /** The state once the request has settled: idle again, the failure message on error. */
  function Finish(s: FormState, g: Generation): FormState {
    s.(isGenerating := false, error := if g.GenerationFailed? then Some(FailureMessage) else s.error)
  }

  /** The whole handler's effect on the form: nothing for a blank topic, otherwise begin then finish. */
  function Generate(s: FormState, g: Generation): (r: FormState)
    ensures r.topic == s.topic && r.tone == s.tone
    ensures IsBlank(s.topic) ==> r == s
    ensures !IsBlank(s.topic) ==> !r.isGenerating
  {
    TrimEmptyIffBlank(s.topic);
    if Trim(s.topic) == "" then s else Finish(Begin(s), g)
  }

  /** The post the handler passes to `onPostCreated`, if it calls it at all. */
  function Created(s: FormState, g: Generation, timestamp: nat, date: string, imageSeed: nat): (r: Option<BlogPost>)
    requires imageSeed < 1000
    ensures r.Some? <==> !IsBlank(s.topic) && g.Generated?
    ensures r.Some? ==> r.value.views == 0 && r.value.author == DefaultAuthor
  {
    TrimEmptyIffBlank(s.topic);
    if Trim(s.topic) == "" || g.GenerationFailed? then None else Some(NewPost(g, timestamp, date, imageSeed))
  }

  /** A blank topic: the form is unchanged and nothing is created. */
  lemma BlankTopicDoesNothing(s: FormState, g: Generation, timestamp: nat, date: string, imageSeed: nat)
    requires imageSeed < 1000
    requires IsBlank(s.topic)
    ensures Generate(s, g) == s
    ensures Created(s, g, timestamp, date, imageSeed) == None
  {
    TrimEmptyIffBlank(s.topic);
  }

  /** Success: one post built from the result is created, no error, idle again, input kept. */
  lemma GenerateSucceeds(s: FormState, g: Generation, timestamp: nat, date: string, imageSeed: nat)
    requires imageSeed < 1000
    requires !IsBlank(s.topic) && g.Generated?
    ensures Created(s, g, timestamp, date, imageSeed) == Some(NewPost(g, timestamp, date, imageSeed))
    ensures Generate(s, g) == FormState(s.topic, s.tone, false, None)
  {
    TrimEmptyIffBlank(s.topic);
  }

  /** Failure: nothing is created, the fixed message is shown, idle again, topic and tone kept. */
  lemma GenerateFails(s: FormState, timestamp: nat, date: string, imageSeed: nat)
    requires imageSeed < 1000
    requires !IsBlank(s.topic)
    ensures Created(s, GenerationFailed, timestamp, date, imageSeed) == None
    ensures Generate(s, GenerationFailed) == FormState(s.topic, s.tone, false, Some(FailureMessage))
  {
    TrimEmptyIffBlank(s.topic);
  }

  /** After a failure the user can retry at once: Generate is enabled again, Cancel too. */
  lemma FailureIsRetryable(s: FormState)
    requires !IsBlank(s.topic)
    ensures GenerateEnabled(Generate(s, GenerationFailed))
    ensures CancelEnabled(Generate(s, GenerationFailed))
  {
    TrimEmptyIffBlank(s.topic);
  }

  /** While a request is outstanding neither button can be pressed, so no second request starts. */
  lemma BusyDisablesButtons(s: FormState)
    ensures !GenerateEnabled(Begin(s)) && !CancelEnabled(Begin(s))
    ensures Begin(s).error == None
  {
  }

  /** Since the handler never changes the tone, the tone stays one the buttons offer. */
  lemma GenerateKeepsInput(s: FormState, g: Generation)
    ensures ToneOffered(s) ==> ToneOffered(Generate(s, g))
  {
  }

  /** The form opens with Generate disabled (the topic is empty) and Cancel enabled. */
  lemma InitialFormFacts()
    ensures !GenerateEnabled(InitialForm()) && CancelEnabled(InitialForm())
  {
  }

  /** A created post raises the analytics count by one and leaves the total views unchanged. */
  lemma CreatedPostKeepsTotalViews(s: FormState, g: Generation, timestamp: nat, date: string, imageSeed: nat,
                                   app: App.AppState)
    requires imageSeed < 1000
    requires Created(s, g, timestamp, date, imageSeed).Some?
    ensures var t := App.Step(app, App.PostCreated(Created(s, g, timestamp, date, imageSeed).value));
      && App.TotalPosts(t.posts) == App.TotalPosts(app.posts) + 1
      && App.TotalViews(t.posts) == App.TotalViews(app.posts)
  {
    var p := Created(s, g, timestamp, date, imageSeed).value;
    App.PrependAggregates(p, app.posts);
  }

  // ---------------------------------------------------------------------------
  // The component itself

  /** The form component's state, updated in place by its handlers. */
  class CreatePostForm {
    var topic: string
    var tone: string
    var isGenerating: bool
    var error: Option<string>

    /** The fields as one value. */
    function State(): FormState
      reads this
    {
      FormState(topic, tone, isGenerating, error)
    }

    /** The component invariant: the tone is one of the offered five. */
    ghost predicate Valid()
      reads this
    {
      ToneOffered(State())
    }

    /** Mounting the form. */
    constructor ()
      ensures Valid()
      ensures State() == InitialForm()
    {
      topic := "";
      tone := DefaultTone;
      isGenerating := false;
      error := None;
    }

    /** The topic text area's onChange. */
    method SetTopic(text: string)
      requires Valid()
      modifies this
      ensures Valid()
      ensures State() == old(State()).(topic := text)
    {
      topic := text;
    }

    /** A tone button: only ever one of the listed tones. */
    method SetTone(t: string)
      requires Valid()
      requires t in Tones
      modifies this
      ensures Valid()
      ensures State() == old(State()).(tone := t)
    {
      tone := t;
    }

    /** The part of `handleGenerate` before the request: the blank-topic guard, then busy with no error. */
    method BeginGenerate() returns (started: bool)
      requires Valid()
      modifies this
      ensures Valid()
      ensures started <==> !IsBlank(old(topic))
      ensures State() == if started then Begin(old(State())) else old(State())
    {
      TrimEmptyIffBlank(topic);
      if Trim(topic) == "" {
        return false;
      }
      isGenerating := true;
      error := None;
      started := true;
    }

    /**
     * The part of `handleGenerate` after the request settles: on success build the post and
     * call `onPostCreated` with it once; on failure show the message; either way become idle.
     */
    method FinishGenerate(g: Generation, timestamp: nat, date: string, imageSeed: nat,
                          onPostCreated: App.AppController)
      returns (created: Option<BlogPost>)
      requires Valid() && onPostCreated.Valid()
      requires imageSeed < 1000
      modifies this, onPostCreated
      ensures Valid() && onPostCreated.Valid()
      ensures State() == Finish(old(State()), g)
      ensures created == if g.Generated? then Some(NewPost(g, timestamp, date, imageSeed)) else None
      ensures created.Some? ==>
        onPostCreated.State() == App.Step(old(onPostCreated.State()), App.PostCreated(created.value))
      ensures created.None? ==> onPostCreated.State() == old(onPostCreated.State())
    {
      match g {
        case Generated(_, _, _, _) =>
          var newPost := NewPost(g, timestamp, date, imageSeed);
          onPostCreated.HandleCreatePost(newPost);
          created := Some(newPost);
        case GenerationFailed =>
          error := Some(FailureMessage);
          created := None;
      }
      isGenerating := false;
    }

    /** `handleGenerate` as one sequential step, with the service's outcome given. */
    method HandleGenerate(g: Generation, timestamp: nat, date: string, imageSeed: nat,
                          onPostCreated: App.AppController)
      returns (created: Option<BlogPost>)
      requires Valid() && onPostCreated.Valid()
      requires imageSeed < 1000
      modifies this, onPostCreated
      ensures Valid() && onPostCreated.Valid()
      ensures State() == Generate(old(State()), g)
      ensures created == Created(old(State()), g, timestamp, date, imageSeed)
      ensures created.Some? ==>
        onPostCreated.State() == App.Step(old(onPostCreated.State()), App.PostCreated(created.value))
      ensures created.None? ==> onPostCreated.State() == old(onPostCreated.State())
    {
      TrimEmptyIffBlank(topic);
      var started := BeginGenerate();
      if !started {
        return None;
      }
      created := FinishGenerate(g, timestamp, date, imageSeed, onPostCreated);
    }
  }
}
