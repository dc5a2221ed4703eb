/**
 * The token scan shared by both extractors: which start tags the four rules
 * recognise, the events the scan reacts to, the transition table over the
 * scan state `(question JSON, answers so far, in-progress answer)`, and the
 * traversal of the token stream (only start tags are examined; an ld+json
 * script consumes the very next token).
 */
module Scan {
  import opened Wrappers
  import opened Html
  import opened Types
  import opened Patterns

  const UsernameClass := "answer__account-username"
  const LdJsonType := "application/ld+json"

  // ----- what the rules read from a tag -----

  /** The `question-data` value of a div. */
  function QuestionDataOf(t: Token): Option<string> {
    TagAttr("div", "question-data", t)
  }

  /** The answer id of a div whose first `id` fully matches `answer-<digits>`
      and whose digits fit in 64 bits. */
  function AnswerIdOf(t: Token): Option<uint64> {
    match TagAttr("div", "id", t)
    case None => None
    case Some(v) =>
      match AnswerIdSubmatch(v)
      case None => None
      case Some(d) => ParseUint64(d)
  }

  /** A script whose first `type` attribute is `application/ld+json`. */
  predicate IsLdJsonScript(t: Token) {
    TagAttr("script", "type", t) == Some(LdJsonType)
  }

  /** A link whose first `class` attribute is exactly the username class. */
  predicate IsUsernameLink(t: Token) {
    TagAttr("a", "class", t) == Some(UsernameClass)
  }

  /** The user id in the leading digit run after `/account/` in the first
      `href` of a link, when it fits in 64 bits. */
  function UserIdOf(t: Token): Option<uint64> {
    match TagAttr("a", "href", t)
    case None => None
    case Some(h) =>
      match UserIdSubmatch(h)
      case None => None
      case Some(d) => ParseUint64(d)
  }

  // ----- rules, events and the transition table -----

  /** The outcome of examining one start tag against the four rules. */
  datatype Rule =
    | QuestionData(json: string)
    | AnswerId(id: uint64)
    | LdJsonScript
    | UsernameLink(userId: Option<uint64>)
    | NoRule

  /** What one examined start tag does to the scan state. */
  datatype Event =
    | SetQuestionJson(json: string)
    | SetAnswerId(id: uint64)
    | SetAnswerJson(json: string)
    | AppendAnswer(userId: Option<uint64>)

  datatype ScanState = ScanState(json: string, answers: seq<Answer>, current: Answer)

  /** The state before the first token: no question JSON, no answers, a zero
      in-progress answer. */
  const Start := ScanState("", [], NoAnswer)

  /**
   * The transition table. An append stores the in-progress answer with the
   * link's user id (or the user id it already had) and starts a zero one.
   */
  function Apply(s: ScanState, e: Event): (r: ScanState)
    ensures !e.SetQuestionJson? ==> r.json == s.json
    ensures !e.SetAnswerId? && !e.AppendAnswer? ==> r.current.id == s.current.id
    ensures !e.SetAnswerJson? && !e.AppendAnswer? ==> r.current.json == s.current.json
    ensures !e.AppendAnswer? ==> r.answers == s.answers && r.current.userId == s.current.userId
    ensures e.AppendAnswer? ==> r.current == NoAnswer && |r.answers| == |s.answers| + 1
    ensures e.AppendAnswer? ==> r.answers[..|s.answers|] == s.answers
    ensures e.AppendAnswer? ==> r.answers[|s.answers|].id == s.current.id && r.answers[|s.answers|].json == s.current.json
    ensures e.AppendAnswer? ==> r.answers[|s.answers|].userId == e.userId.GetOr(s.current.userId)
  {
    match e
    case SetQuestionJson(j) => s.(json := j)
    case SetAnswerId(n) => s.(current := s.current.(id := n))
    case SetAnswerJson(j) => s.(current := s.current.(json := j))
    case AppendAnswer(u) =>
      s.(answers := s.answers + [s.current.(userId := u.GetOr(s.current.userId))], current := NoAnswer)
  }

  /** The number of appends among `evs`. */
  function Appends(evs: seq<Event>): nat
    decreases |evs|
  {
    if evs == [] then 0 else (if evs[0].AppendAnswer? then 1 else 0) + Appends(evs[1..])
  }

  /** The state after reacting to `evs` in order, starting from `s`. Answers
      are only ever added at the end, one per append. */
  function Run(s: ScanState, evs: seq<Event>): (r: ScanState)
    ensures |r.answers| == |s.answers| + Appends(evs)
    ensures r.answers[..|s.answers|] == s.answers
    decreases |evs|
  {
    if evs == [] then s else Run(Apply(s, evs[0]), evs[1..])
  }

  lemma RunCons(s: ScanState, e: Event, evs: seq<Event>)
    ensures Run(s, [e] + evs) == Run(Apply(s, e), evs)
  {
    assert ([e] + evs)[1..] == evs;
  }

  lemma {:induction false} RunConcat(s: ScanState, evs: seq<Event>, tail: seq<Event>)
    ensures Run(s, evs + tail) == Run(Run(s, evs), tail)
    decreases |evs|
  {
    if evs == [] {
      assert evs + tail == tail;
    } else {
      assert evs + tail == [evs[0]] + (evs[1..] + tail);
      RunCons(s, evs[0], evs[1..] + tail);
      RunConcat(Apply(s, evs[0]), evs[1..], tail);
    }
  }

  // ----- reference definitions over an event list -----

  function UserIds(answers: seq<Answer>): seq<uint64>
    decreases |answers|
  {
    if answers == [] then [] else [answers[0].userId] + UserIds(answers[1..])
  }

  /** The user id each append stores when the in-progress answer's own user id
      is zero. */
  function EventUserIds(evs: seq<Event>): seq<uint64>
    decreases |evs|
  {
    if evs == [] then []
    else (if evs[0].AppendAnswer? then [evs[0].userId.GetOr(0)] else []) + EventUserIds(evs[1..])
  }

  lemma EventUserIdsCons(e: Event, evs: seq<Event>)
    ensures EventUserIds([e] + evs) == (if e.AppendAnswer? then [e.userId.GetOr(0)] else []) + EventUserIds(evs)
  {
    assert ([e] + evs)[1..] == evs;
  }

  function LastQuestionJson(evs: seq<Event>): Option<string>
    decreases |evs|
  {
    if evs == [] then None
    else if LastQuestionJson(evs[1..]).Some? then LastQuestionJson(evs[1..])
    else if evs[0].SetQuestionJson? then Some(evs[0].json)
    else None
  }

  lemma LastQuestionJsonCons(e: Event, evs: seq<Event>)
    ensures LastQuestionJson([e] + evs)
         == if LastQuestionJson(evs).Some? then LastQuestionJson(evs)
            else if e.SetQuestionJson? then Some(e.json) else None
  {
    assert ([e] + evs)[1..] == evs;
  }

  function LastAnswerId(evs: seq<Event>): Option<uint64>
    decreases |evs|
  {
    if evs == [] then None
    else if LastAnswerId(evs[1..]).Some? then LastAnswerId(evs[1..])
    else if evs[0].SetAnswerId? then Some(evs[0].id)
    else None
  }

  function LastAnswerJson(evs: seq<Event>): Option<string>
    decreases |evs|
  {
    if evs == [] then None
    else if LastAnswerJson(evs[1..]).Some? then LastAnswerJson(evs[1..])
    else if evs[0].SetAnswerJson? then Some(evs[0].json)
    else None
  }

  // ----- properties of the transition table -----

  lemma {:induction false} UserIdsConcat(a: seq<Answer>, b: seq<Answer>)
    ensures UserIds(a + b) == UserIds(a) + UserIds(b)
    decreases |a|
  {
    if a == [] {
      assert a + b == b;
    } else {
      assert (a + b)[1..] == a[1..] + b;
      UserIdsConcat(a[1..], b);
    }
  }

  /**
   * While the in-progress answer's user id is zero, the answers gain exactly
   * one user id per append, in order: the link's id, or 0 when it has none.
   */
  lemma {:induction false} RunUserIds(s: ScanState, evs: seq<Event>)
    requires s.current.userId == 0
    ensures UserIds(Run(s, evs).answers) == UserIds(s.answers) + EventUserIds(evs)
    decreases |evs|
  {
    if evs != [] {
      var s' := Apply(s, evs[0]);
      RunUserIds(s', evs[1..]);
      if evs[0].AppendAnswer? {
        UserIdsConcat(s.answers, [s.current.(userId := evs[0].userId.GetOr(0))]);
      }
    }
  }

  /** The question JSON is the payload of the last question-data event, or the
      one the state started with. */
  lemma {:induction false} RunQuestionJson(s: ScanState, evs: seq<Event>)
    ensures Run(s, evs).json == LastQuestionJson(evs).GetOr(s.json)
    decreases |evs|
  {
    if evs != [] {
      RunQuestionJson(Apply(s, evs[0]), evs[1..]);
    }
  }

  /**
   * Between two appends the state only collects: the last question JSON, the
   * last answer id and the last ld+json payload seen win; the answers and the
   * in-progress user id do not change.
   */
  lemma {:induction false} RunWithinSegment(s: ScanState, seg: seq<Event>)
    requires Appends(seg) == 0
    ensures Run(s, seg) == ScanState(
      LastQuestionJson(seg).GetOr(s.json),
      s.answers,
      Answer(LastAnswerId(seg).GetOr(s.current.id), LastAnswerJson(seg).GetOr(s.current.json), s.current.userId))
    decreases |seg|
  {
    if seg != [] {
      RunWithinSegment(Apply(s, seg[0]), seg[1..]);
    }
  }

  /**
   * An append stores the last answer id and the last ld+json payload seen
   * since the previous append (or the in-progress values before them) and
   * resets the in-progress answer to zero.
   */
  lemma AnswerFromSegment(s: ScanState, seg: seq<Event>, u: Option<uint64>)
    requires Appends(seg) == 0
    ensures Run(s, seg + [AppendAnswer(u)]) == ScanState(
      LastQuestionJson(seg).GetOr(s.json),
      s.answers + [Answer(LastAnswerId(seg).GetOr(s.current.id), LastAnswerJson(seg).GetOr(s.current.json), u.GetOr(s.current.userId))],
      NoAnswer)
  {
    RunConcat(s, seg, [AppendAnswer(u)]);
    RunWithinSegment(s, seg);
  }

  /** Nothing after the last append reaches the answers: an id or payload seen
      after the last username link is dropped. */
  lemma TrailingEventsDropped(s: ScanState, evs: seq<Event>, tail: seq<Event>)
    requires Appends(tail) == 0
    ensures Run(s, evs + tail).answers == Run(s, evs).answers
  {
    RunConcat(s, evs, tail);
    var m := Run(s, evs);
    assert Run(m, tail).answers == Run(m, tail).answers[..|m.answers|];
  }

  // ----- the traversal of the token stream -----

  function Cons(e: Event, r: Option<seq<Event>>): Option<seq<Event>> {
    match r
    case None => None
    case Some(evs) => Some([e] + evs)
  }

  /** The event of a rule other than `NoRule`; `next` is the token after the
      tag, whose data an ld+json script takes. */
  function RuleEvent(r: Rule, next: Token): Event
    requires !r.NoRule?
  {
    match r
    case QuestionData(j) => SetQuestionJson(j)
    case AnswerId(n) => SetAnswerId(n)
    case LdJsonScript => SetAnswerJson(next.Data())
    case UsernameLink(u) => AppendAnswer(u)
  }

  /**
   * The events of the scan from position `i`, given how each start tag is
   * classified (`None` stands for a classification that panics). The scan ends
   * at the first error token; only start tags are examined; an ld+json script
   * takes the data of the next token as the answer payload, and that token is
   * never examined itself.
   */
  function Events(examine: Token -> Option<Rule>, toks: seq<Token>, i: nat): (r: Option<seq<Event>>)
    ensures r.Some? && i <= |toks| ==> |r.value| <= |toks| - i
    decreases |toks| - i
  {
    if i >= |toks| || toks[i].ErrorToken? then Some([])
    else if !toks[i].StartTag? then Events(examine, toks, i + 1)
    else
      match examine(toks[i])
      case None => None
      case Some(r) =>
        if r.NoRule? then Events(examine, toks, i + 1)
        else if !r.LdJsonScript? then Cons(RuleEvent(r, At(toks, i + 1)), Events(examine, toks, i + 1))
        else if At(toks, i + 1).ErrorToken? then Some([RuleEvent(r, At(toks, i + 1))])
        else Cons(RuleEvent(r, At(toks, i + 1)), Events(examine, toks, i + 2))
  }

  /** The events from inside `b` do not depend on what precedes `b`. */
  lemma {:induction false} EventsShift(examine: Token -> Option<Rule>, a: seq<Token>, b: seq<Token>, j: nat)
    ensures Events(examine, a + b, |a| + j) == Events(examine, b, j)
    decreases |b| - j
  {
    if j < |b| {
      assert (a + b)[|a| + j] == b[j];
      assert At(a + b, |a| + j + 1) == At(b, j + 1);
      EventsShift(examine, a, b, j + 1);
      EventsShift(examine, a, b, j + 2);
    }
  }

  /** Both event lists joined, or a panic when either panics. */
  function Join(x: Option<seq<Event>>, y: Option<seq<Event>>): Option<seq<Event>> {
    match x
    case None => None
    case Some(u) =>
      match y
      case None => None
      case Some(v) => Some(u + v)
  }

  lemma JoinCons(e: Event, x: Option<seq<Event>>, y: Option<seq<Event>>)
    ensures Join(Cons(e, x), y) == Cons(e, Join(x, y))
  {
    if x.Some? && y.Some? {
      assert [e] + x.value + y.value == [e] + (x.value + y.value);
    }
  }

  /**
   * The events of `a + b` are those of `a` followed by those of `b`, when
   * `a` has no error token and does not end with an ld+json script (which
   * would take the first token of `b` as its payload).
   */
  lemma {:induction false} EventsConcat(examine: Token -> Option<Rule>, a: seq<Token>, b: seq<Token>, i: nat)
    requires i <= |a|
    requires forall k | 0 <= k < |a| :: !a[k].ErrorToken?
    requires a != [] && a[|a| - 1].StartTag? ==> examine(a[|a| - 1]) != Some(LdJsonScript)
    ensures Events(examine, a + b, i) == Join(Events(examine, a, i), Events(examine, b, 0))
    decreases |a| - i
  {
    if i == |a| {
      EventsShift(examine, a, b, 0);
      if Events(examine, b, 0).Some? {
        assert [] + Events(examine, b, 0).value == Events(examine, b, 0).value;
      }
    } else {
      assert (a + b)[i] == a[i];
      EventsConcat(examine, a, b, i + 1);
      if a[i].StartTag? && examine(a[i]).Some? && !examine(a[i]).value.NoRule? {
        var r := examine(a[i]).value;
        if r.LdJsonScript? {
          assert i + 1 < |a|;
          assert At(a + b, i + 1) == At(a, i + 1);
          EventsConcat(examine, a, b, i + 2);
          JoinCons(RuleEvent(r, At(a, i + 1)), Events(examine, a, i + 2), Events(examine, b, 0));
        } else {
          assert RuleEvent(r, At(a + b, i + 1)) == RuleEvent(r, At(a, i + 1));
          JoinCons(RuleEvent(r, At(a, i + 1)), Events(examine, a, i + 1), Events(examine, b, 0));
        }
      }
    }
  }

  /** The state the scan reaches from `s` over `evs`; nothing when the scan
      panics. */
  function Finish(s: ScanState, evs: Option<seq<Event>>): Option<ScanState> {
    match evs
    case None => None
    case Some(e) => Some(Run(s, e))
  }

  /** What the scan does at a start tag classified as `rule`: the new state,
      or nothing when the classification panics. */
  function AtStartTag(s: ScanState, rule: Option<Rule>, next: Token): Option<ScanState> {
    match rule
    case None => None
    case Some(r) => Some(if r.NoRule? then s else Apply(s, RuleEvent(r, next)))
  }

  /** One step of the traversal at a token that is not an error token: what
      is left to do after it, from the state the step leaves. */
  lemma FinishStep(examine: Token -> Option<Rule>, toks: seq<Token>, i: nat, s: ScanState)
    requires i < |toks| && !toks[i].ErrorToken?
    ensures !toks[i].StartTag? ==> Finish(s, Events(examine, toks, i)) == Finish(s, Events(examine, toks, i + 1))
    ensures toks[i].StartTag? ==>
      Finish(s, Events(examine, toks, i)) ==
        match AtStartTag(s, examine(toks[i]), At(toks, i + 1))
        case None => None
        case Some(s') =>
          if examine(toks[i]) != Some(LdJsonScript) then Finish(s', Events(examine, toks, i + 1))
          else if At(toks, i + 1).ErrorToken? then Some(s')
          else Finish(s', Events(examine, toks, i + 2))
  {
    if toks[i].StartTag? && examine(toks[i]).Some? && !examine(toks[i]).value.NoRule? {
      var e := RuleEvent(examine(toks[i]).value, At(toks, i + 1));
      var j := if examine(toks[i]).value.LdJsonScript? then i + 2 else i + 1;
      if Events(examine, toks, j).Some? {
        RunCons(s, e, Events(examine, toks, j).value);
      }
      assert Run(Apply(s, e), []) == Apply(s, e);
    }
  }

  /**
   * A start tag that panics ends the whole traversal in a panic, when no
   * error token comes before it and no ld+json script before it is directly
   * followed by a start tag (which would hide that tag from the scan).
   */
  lemma {:induction false} PanicStops(examine: Token -> Option<Rule>, toks: seq<Token>, i: nat, k: nat)
    requires i <= k < |toks|
    requires forall j | i <= j < k :: !toks[j].ErrorToken?
    requires forall j | i <= j < k :: toks[j].StartTag? && examine(toks[j]) == Some(LdJsonScript) ==> !toks[j + 1].StartTag?
    requires toks[k].StartTag? && examine(toks[k]).None?
    ensures Events(examine, toks, i).None?
    decreases k - i
  {
    if i < k {
      if toks[i].StartTag? && examine(toks[i]) == Some(LdJsonScript) {
        assert i + 1 != k;
        PanicStops(examine, toks, i + 2, k);
      } else {
        PanicStops(examine, toks, i + 1, k);
      }
    }
  }

  /** A panic always comes from a start tag whose classification panics:
      the converse of `PanicStops`. */
  lemma {:induction false} PanicHasCause(examine: Token -> Option<Rule>, toks: seq<Token>, i: nat)
    ensures Events(examine, toks, i).None? ==>
      exists k | i <= k < |toks| :: toks[k].StartTag? && examine(toks[k]).None?
    decreases |toks| - i
  {
    if i < |toks| && !toks[i].ErrorToken? {
      PanicHasCause(examine, toks, i + 1);
      PanicHasCause(examine, toks, i + 2);
    }
  }

  /** A token stream that `examine` traverses tag by tag: no error token,
      no panic, and no ld+json script directly followed by a start tag. */
  predicate PlainUnder(examine: Token -> Option<Rule>, toks: seq<Token>) {
    (forall k | 0 <= k < |toks| :: !toks[k].ErrorToken? && (toks[k].StartTag? ==> examine(toks[k]).Some?)) &&
    (forall k | 0 <= k < |toks| - 1 :: toks[k].StartTag? && examine(toks[k]) == Some(LdJsonScript) ==> !toks[k + 1].StartTag?)
  }

  /** The user id `examine` has a start tag append, if it is a username link. */
  function AppendedId(examine: Token -> Option<Rule>, t: Token): seq<uint64> {
    if t.StartTag? && examine(t).Some? && examine(t).value.UsernameLink? then [examine(t).value.userId.GetOr(0)] else []
  }

  function AppendedIds(examine: Token -> Option<Rule>, ts: seq<Token>): seq<uint64>
    decreases |ts|
  {
    if ts == [] then [] else AppendedId(examine, ts[0]) + AppendedIds(examine, ts[1..])
  }

  /** On a stream it traverses tag by tag, the appends are those of the
      username links `examine` finds, in order. */
  lemma {:induction false} PlainUserIds(examine: Token -> Option<Rule>, toks: seq<Token>, i: nat)
    requires PlainUnder(examine, toks) && i <= |toks|
    ensures Events(examine, toks, i).Some?
    ensures EventUserIds(Events(examine, toks, i).value) == AppendedIds(examine, toks[i..])
    decreases |toks| - i
  {
    if i < |toks| {
      var t := toks[i];
      assert toks[i..][1..] == toks[i + 1..];
      PlainUserIds(examine, toks, i + 1);
      if t.StartTag? && !examine(t).value.NoRule? {
        var r := examine(t).value;
        if r.LdJsonScript? {
          if i + 1 < |toks| {
            assert toks[i + 1..][1..] == toks[i + 2..];
            PlainUserIds(examine, toks, i + 2);
            EventUserIdsCons(RuleEvent(r, At(toks, i + 1)), Events(examine, toks, i + 2).value);
          }
        } else {
          EventUserIdsCons(RuleEvent(r, At(toks, i + 1)), Events(examine, toks, i + 1).value);
        }
      }
    }
  }

  /**
   * A token stream of the usual shape: no error token before its end, and no
   * ld+json script followed directly by another start tag (so every start tag
   * is examined).
   */
  predicate Plain(toks: seq<Token>) {
    (forall k | 0 <= k < |toks| :: !toks[k].ErrorToken?) &&
    (forall k | 0 <= k < |toks| - 1 :: toks[k].StartTag? && IsLdJsonScript(toks[k]) ==> !toks[k + 1].StartTag?)
  }
}
