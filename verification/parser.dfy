/**
 * The current extractor, `ParseQuestion` in util/parser.go, and the small
 * matcher language it is written in.
 */
module Parser {
  import opened Wrappers
  import opened Html
  import opened Types
  import opened Patterns
  import opened Scan

  /**
   * A matcher over one token: `matched` says whether every step of the chain
   * so far succeeded, `value` holds the string the last successful step
   * selected.
   */
  class Matcher {
    const token: Token
    var value: string
    var matched: bool

    /** `match(t)`: a fresh chain that has not failed yet. */
    constructor (t: Token)
      ensures token == t && value == "" && matched
    {
      token := t;
      value := "";
      matched := true;
    }

    /** `tag(name)`: restarts the chain; it holds exactly when the token's
        name is `name`, whatever the earlier steps gave. */
    method Tag(name: string)
      modifies this
      ensures matched == (token.Data() == name)
      ensures value == old(value)
    {
      matched := token.Data() == name;
    }

    /** `attr(name)`: selects the value of the first attribute with key
        `name`; fails when there is none; a failed chain stays failed and
        keeps its value. */
    method Attr(name: string)
      modifies this
      ensures matched == (old(matched) && FirstAttr(token.Attrs(), name).Some?)
      ensures value == if matched then FirstAttr(token.Attrs(), name).value else old(value)
    {
      if matched {
        matched := false;
        var attrs := token.Attrs();
        var k := 0;
        while k < |attrs|
          invariant k <= |attrs|
          invariant !matched && value == old(value)
          invariant forall j | 0 <= j < k :: attrs[j].key != name
        {
          if attrs[k].key == name {
            value := attrs[k].val;
            matched := true;
            break;
          }
          k := k + 1;
        }
      }
    }

    /** `extract(rx)`: replaces the value by the pattern's capture group;
        fails when the pattern does not match; a failed chain stays failed. */
    method Extract(rx: Pattern)
      modifies this
      ensures matched == (old(matched) && FindSubmatch(rx, old(value)).Some?)
      ensures value == if matched then FindSubmatch(rx, old(value)).value else old(value)
    {
      if matched {
        matched := false;
        var m := FindSubmatch(rx, value);
        if m.Some? {
          value := m.value;
          matched := true;
        }
      }
    }

    /** `to(&target)`: the new target is the value when the chain holds and
        the old target otherwise. */
    method To(target: string) returns (ok: bool, written: string)
      ensures ok == matched
      ensures written == if matched then value else target
    {
      written := target;
      if matched {
        written := value;
      }
      ok := matched;
    }

    /** `toInt(&target)`: the chain holds on only if the value parses as a
        64-bit decimal; only then is the target overwritten. */
    method ToInt(target: uint64) returns (ok: bool, written: uint64)
      modifies this
      ensures value == old(value)
      ensures matched == (old(matched) && ParseUint64(value).Some?)
      ensures ok == matched
      ensures written == if matched then ParseUint64(value).value else target
    {
      written := target;
      if matched {
        matched := false;
        var res := ParseUint64(value);
        if res.Some? {
          written := res.value;
          matched := true;
        }
      }
      ok := matched;
    }

    /** `val(v)`: the chain holds and selected exactly `v`. */
    function Val(v: string): (r: bool)
      reads this
      ensures r ==> matched
      ensures matched ==> (r <==> value == v)
    {
      matched && v == value
    }
  }

  /**
   * The four rules examined on a start tag, first match wins: a div with
   * `question-data`; a div whose id is `answer-<digits>`; an ld+json script;
   * a username link, whatever its href holds.
   */
  function Classify(t: Token): (r: Rule)
    ensures r.QuestionData? <==> QuestionDataOf(t).Some?
    ensures r.QuestionData? ==> r.json == QuestionDataOf(t).value
    ensures r.AnswerId? <==> QuestionDataOf(t).None? && AnswerIdOf(t).Some?
    ensures r.AnswerId? ==> r.id == AnswerIdOf(t).value
    ensures r.LdJsonScript? <==> IsLdJsonScript(t)
    ensures r.UsernameLink? <==> IsUsernameLink(t)
    ensures r.UsernameLink? ==> r.userId == UserIdOf(t)
  {
    if QuestionDataOf(t).Some? then QuestionData(QuestionDataOf(t).value)
    else if AnswerIdOf(t).Some? then AnswerId(AnswerIdOf(t).value)
    else if IsLdJsonScript(t) then LdJsonScript
    else if IsUsernameLink(t) then UsernameLink(UserIdOf(t))
    else NoRule
  }

  /** The classifier the traversal uses; this extractor never panics. */
  function Examine(t: Token): Option<Rule> {
    Some(Classify(t))
  }

  lemma {:induction false} ExamineNeverFails(toks: seq<Token>, i: nat)
    ensures Events(Examine, toks, i).Some?
    decreases |toks| - i
  {
    if i < |toks| && !toks[i].ErrorToken? {
      if !toks[i].StartTag? {
        ExamineNeverFails(toks, i + 1);
      } else if Classify(toks[i]) == LdJsonScript {
        if !At(toks, i + 1).ErrorToken? {
          ExamineNeverFails(toks, i + 2);
        }
      } else {
        ExamineNeverFails(toks, i + 1);
      }
    }
  }

  /** The events of the token stream from position `i`. */
  function TokenEvents(toks: seq<Token>, i: nat := 0): seq<Event> {
    ExamineNeverFails(toks, i);
    Events(Examine, toks, i).value
  }

  /**
   * `ParseQuestion` as a function: an error when either envelope field is
   * missing, and otherwise always a question, carrying the envelope's id and
   * what the scan collected.
   */
  function Parsed(env: Envelope): (r: Result<Question, ParseError>)
    ensures r.Failure? <==> env.questionId.None? || env.questionHtml.None?
    ensures r.Failure? ==> r.error == UnexpectedDocument
    ensures r.Success? ==> r.value.id == env.questionId.value
  {
    if env.questionHtml.None? || env.questionId.None? then Failure(UnexpectedDocument)
    else
      var s := Run(Start, TokenEvents(env.questionHtml.value));
      Success(Question(env.questionId.value, s.json, s.answers))
  }

  /** The first rule: a div with a `question-data` attribute writes its
      value into the question JSON. */
  method QuestionDataChain(m: Matcher, json: string) returns (hit: bool, written: string)
    modifies m
    ensures hit <==> QuestionDataOf(m.token).Some?
    ensures written == QuestionDataOf(m.token).GetOr(json)
  {
    m.Tag("div");
    m.Attr("question-data");
    hit, written := m.To(json);
  }

  /** The second rule: a div whose first `id` matches the answer-id pattern
      and whose digits parse writes the number into the answer id. */
  method AnswerIdChain(m: Matcher, id: uint64) returns (hit: bool, written: uint64)
    modifies m
    ensures hit <==> AnswerIdOf(m.token).Some?
    ensures written == AnswerIdOf(m.token).GetOr(id)
  {
    m.Tag("div");
    m.Attr("id");
    assert m.matched == TagAttr("div", "id", m.token).Some?;
    m.Extract(AnswerIdRx);
    hit, written := m.ToInt(id);
  }

  /** The third rule: a script whose first `type` is the ld+json type. */
  method LdJsonChain(m: Matcher) returns (hit: bool)
    modifies m
    ensures hit == IsLdJsonScript(m.token)
  {
    m.Tag("script");
    m.Attr("type");
    hit := m.Val(LdJsonType);
  }

  /** The fourth rule: a link whose first `class` is the username class. */
  method UsernameChain(m: Matcher) returns (hit: bool)
    modifies m
    ensures hit == IsUsernameLink(m.token)
  {
    m.Tag("a");
    m.Attr("class");
    hit := m.Val(UsernameClass);
  }

  /** Inside the fourth rule: the link's first `href`, matched against the
      user-id pattern, writes the parsed number into the answer's user id. */
  method UserIdChain(m: Matcher, userId: uint64) returns (written: uint64)
    modifies m
    ensures written == UserIdOf(m.token).GetOr(userId)
  {
    m.Tag("a");
    m.Attr("href");
    assert m.matched == TagAttr("a", "href", m.token).Some?;
    m.Extract(UserIdRx);
    var _, w := m.ToInt(userId);
    written := w;
  }

  /**
   * The start-tag arm of the token loop: examines `toks[i]` against the four
   * rules in order and updates the question JSON, the answers and the
   * in-progress answer. An ld+json script reads the next token.
   */
  method OnStartTag(toks: seq<Token>, i: nat, state: ScanState) returns (after: ScanState, consumed: bool)
    requires i < |toks|
    ensures after == if Classify(toks[i]).NoRule? then state else Apply(state, RuleEvent(Classify(toks[i]), At(toks, i + 1)))
    ensures consumed <==> Classify(toks[i]).LdJsonScript?
  {
    consumed := false;
    var json, answers, answer := state.json, state.answers, state.current;
    var m := new Matcher(toks[i]);
    var isQuestion, isAnswer, isScript, isUsername;
    isQuestion, json := QuestionDataChain(m, json);
    if !isQuestion {
      var id;
      isAnswer, id := AnswerIdChain(m, answer.id);
      answer := answer.(id := id);
      if !isAnswer {
        isScript := LdJsonChain(m);
        if isScript {
          // the text node next to the script tag
          answer := answer.(json := At(toks, i + 1).Data());
          consumed := true;
        } else {
          isUsername := UsernameChain(m);
          if isUsername {
            var userId := UserIdChain(m, answer.userId);
            answers := answers + [answer.(userId := userId)];
            answer := NoAnswer;
          }
        }
      }
    }
    after := ScanState(json, answers, answer);
  }

  /** `ParseQuestion` on an envelope: the error for a missing field, or the
      question the token loop collects. */
  method ParseQuestion(env: Envelope) returns (r: Result<Question, ParseError>)
    ensures r == Parsed(env)
  {
    if env.questionHtml.None? || env.questionId.None? {
      return Failure(UnexpectedDocument);
    }
    var state := ScanTokens(env.questionHtml.value);
    r := Success(Question(env.questionId.value, state.json, state.answers));
  }

  /** The token loop of `ParseQuestion`, with the tokenizer as a position in
      the token sequence: the state the traversal of the tokens ends in. */
  method ScanTokens(toks: seq<Token>) returns (state: ScanState)
    ensures Some(state) == Finish(Start, Events(Examine, toks, 0))
  {
    state := Start;
    ghost var final := Finish(Start, Events(Examine, toks, 0));
    var i := 0;
    while i < |toks| && !toks[i].ErrorToken?
      invariant i <= |toks|
      invariant Finish(state, Events(Examine, toks, i)) == final
      decreases |toks| - i
    {
      FinishStep(Examine, toks, i, state);
      if toks[i].StartTag? {
        var consumed;
        state, consumed := OnStartTag(toks, i, state);
        if consumed {
          // the tokenizer has moved on to the token after the script
          if At(toks, i + 1).ErrorToken? {
            break;
          }
          i := i + 1;
        }
      }
      i := i + 1;
    }
  }

  // ----- what the scan produces, stated over the tokens -----

  /** The user id a username-link start tag contributes: the href's id, or
      0 when the href gives none. */
  function LinkUserIdOf(t: Token): seq<uint64> {
    if t.StartTag? && IsUsernameLink(t) then [UserIdOf(t).GetOr(0)] else []
  }

  /** The user ids of the username-link start tags of `ts`, in order. */
  function LinkUserIds(ts: seq<Token>): seq<uint64>
    decreases |ts|
  {
    if ts == [] then [] else LinkUserIdOf(ts[0]) + LinkUserIds(ts[1..])
  }

  /** The `question-data` value of the last div start tag of `ts` that has one. */
  function LastQuestionData(ts: seq<Token>): Option<string>
    decreases |ts|
  {
    if ts == [] then None
    else if LastQuestionData(ts[1..]).Some? then LastQuestionData(ts[1..])
    else if ts[0].StartTag? && QuestionDataOf(ts[0]).Some? then QuestionDataOf(ts[0])
    else None
  }

  lemma TokensAt(ts: seq<Token>, i: nat)
    requires i < |ts|
    ensures LinkUserIds(ts[i..]) == LinkUserIdOf(ts[i]) + LinkUserIds(ts[i + 1..])
    ensures LastQuestionData(ts[i..])
         == if LastQuestionData(ts[i + 1..]).Some? then LastQuestionData(ts[i + 1..])
            else if ts[i].StartTag? && QuestionDataOf(ts[i]).Some? then QuestionDataOf(ts[i]) else None
  {
    assert ts[i..][1..] == ts[i + 1..];
  }

  lemma {:induction false} PlainEvents(toks: seq<Token>, i: nat)
    requires Plain(toks) && i <= |toks|
    ensures EventUserIds(TokenEvents(toks, i)) == LinkUserIds(toks[i..])
    ensures LastQuestionJson(TokenEvents(toks, i)) == LastQuestionData(toks[i..])
    decreases |toks| - i
  {
    ExamineNeverFails(toks, i);
    if i < |toks| {
      var t := toks[i];
      TokensAt(toks, i);
      ExamineNeverFails(toks, i + 1);
      PlainEvents(toks, i + 1);
      if t.StartTag? {
        var r := Classify(t);
        if r.LdJsonScript? {
          assert LinkUserIdOf(t) == [] && QuestionDataOf(t).None?;
          if i + 1 < |toks| {
            assert !toks[i + 1].StartTag?;
            TokensAt(toks, i + 1);
            assert LinkUserIdOf(toks[i + 1]) == [];
            ExamineNeverFails(toks, i + 2);
            PlainEvents(toks, i + 2);
            var e := SetAnswerJson(toks[i + 1].Data());
            EventUserIdsCons(e, TokenEvents(toks, i + 2));
            LastQuestionJsonCons(e, TokenEvents(toks, i + 2));
          }
        } else if !r.NoRule? {
          var e := RuleEvent(r, At(toks, i + 1));
          EventUserIdsCons(e, TokenEvents(toks, i + 1));
          LastQuestionJsonCons(e, TokenEvents(toks, i + 1));
        }
      }
    }
  }

  /**
   * On a plain token stream there is one answer per username link, in
   * document order, each appended whatever its href holds: its user id is the
   * href's `/account/<digits>` id, or 0.
   */
  lemma AnswersFollowUsernameLinks(env: Envelope)
    requires env.questionId.Some? && env.questionHtml.Some? && Plain(env.questionHtml.value)
    ensures Parsed(env).Success?
    ensures UserIds(Parsed(env).value.answers) == LinkUserIds(env.questionHtml.value)
  {
    var toks := env.questionHtml.value;
    PlainEvents(toks, 0);
    RunUserIds(Start, TokenEvents(toks));
    assert toks[0..] == toks;
  }

  /** On a plain token stream the question JSON is the `question-data` of the
      last div carrying one, or empty when there is none. */
  lemma QuestionJsonFromLastDiv(env: Envelope)
    requires env.questionId.Some? && env.questionHtml.Some? && Plain(env.questionHtml.value)
    ensures Parsed(env).Success?
    ensures Parsed(env).value.json == LastQuestionData(env.questionHtml.value).GetOr("")
  {
    var toks := env.questionHtml.value;
    PlainEvents(toks, 0);
    RunQuestionJson(Start, TokenEvents(toks));
    assert toks[0..] == toks;
  }

  lemma {:induction false} NoLinksNoAppends(ts: seq<Token>, j: nat)
    requires forall k | 0 <= k < |ts| :: ts[k].StartTag? ==> !IsUsernameLink(ts[k])
    ensures Appends(TokenEvents(ts, j)) == 0
    decreases |ts| - j
  {
    ExamineNeverFails(ts, j);
    if j < |ts| {
      ExamineNeverFails(ts, j + 1);
      NoLinksNoAppends(ts, j + 1);
      if j + 1 < |ts| {
        ExamineNeverFails(ts, j + 2);
        NoLinksNoAppends(ts, j + 2);
      }
    }
  }

  /** The events of `a + b` are those of `a` followed by those of `b`, when
      `a` has no error token and does not end with an ld+json script. */
  lemma TokenEventsConcat(a: seq<Token>, b: seq<Token>)
    requires forall k | 0 <= k < |a| :: !a[k].ErrorToken?
    requires a != [] ==> !(a[|a| - 1].StartTag? && IsLdJsonScript(a[|a| - 1]))
    ensures TokenEvents(a + b) == TokenEvents(a) + TokenEvents(b)
  {
    ExamineNeverFails(a + b, 0);
    ExamineNeverFails(a, 0);
    ExamineNeverFails(b, 0);
    EventsConcat(Examine, a, b, 0);
  }

  /**
   * Tokens after the last username link never change the answers: an answer
   * id or ld+json payload that no later username link completes is dropped.
   */
  lemma UnfinishedAnswerDropped(id: uint64, toks: seq<Token>, tail: seq<Token>)
    requires forall k | 0 <= k < |toks| :: !toks[k].ErrorToken?
    requires toks != [] ==> !(toks[|toks| - 1].StartTag? && IsLdJsonScript(toks[|toks| - 1]))
    requires forall k | 0 <= k < |tail| :: tail[k].StartTag? ==> !IsUsernameLink(tail[k])
    ensures Parsed(Envelope(Some(id), Some(toks + tail))).value.answers
         == Parsed(Envelope(Some(id), Some(toks))).value.answers
  {
    TokenEventsConcat(toks, tail);
    NoLinksNoAppends(tail, 0);
    TrailingEventsDropped(Start, TokenEvents(toks), TokenEvents(tail));
  }
}
