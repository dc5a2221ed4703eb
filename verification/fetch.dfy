/**
 * The older extractor of fetch.go: the same scan written as an if/else chain
 * on attribute presence (`getAttr`). It differs from util/parser.go on
 * username links only: an answer is appended only when the href yields a
 * user id, a link whose href gives none leaves the in-progress answer as it
 * is, and a username link without any href dereferences a nil attribute.
 */
module Fetch {
  import opened Wrappers
  import opened Html
  import opened Types
  import opened Patterns
  import opened Scan
  import Parser

  /** `getAttr`: the first `attrName` attribute of `t` when `t` is a `tagName`
      tag, found by a scan of the attribute list. */
  method GetAttr(tagName: string, attrName: string, t: Token) returns (r: Option<Attribute>)
    ensures r.None? <==> TagAttr(tagName, attrName, t).None?
    ensures r.Some? ==> r.value == Attribute(attrName, TagAttr(tagName, attrName, t).value)
  {
    if t.Data() == tagName {
      var attrs := t.Attrs();
      var k := 0;
      while k < |attrs|
        invariant k <= |attrs|
        invariant forall j | 0 <= j < k :: attrs[j].key != attrName
      {
        if attrs[k].key == attrName {
          return Some(attrs[k]);
        }
        k := k + 1;
      }
    }
    return None;
  }

  /**
   * What the chain of fetch.go makes of one start tag; `None` is the nil
   * dereference of a username link without an href. The branch is chosen by
   * which attribute is present, not by whether its value matches: a div with
   * an `id` that is not `answer-<digits>` goes no further.
   */
  function Examine(t: Token): (r: Option<Rule>)
    ensures r.None? <==> IsUsernameLink(t) && TagAttr("a", "href", t).None?
    ensures r == Some(LdJsonScript) <==> IsLdJsonScript(t)
    ensures r.Some? && r.value.UsernameLink? ==> r.value.userId.Some? && r.value.userId == UserIdOf(t)
  {
    if TagAttr("div", "question-data", t).Some? then
      Some(QuestionData(TagAttr("div", "question-data", t).value))
    else if TagAttr("div", "id", t).Some? then
      Some(if AnswerIdOf(t).Some? then AnswerId(AnswerIdOf(t).value) else NoRule)
    else if TagAttr("script", "type", t).Some? then
      Some(if IsLdJsonScript(t) then LdJsonScript else NoRule)
    else if TagAttr("a", "class", t).Some? && IsUsernameLink(t) then
      if TagAttr("a", "href", t).None? then None
      else if UserIdOf(t).Some? then Some(UsernameLink(UserIdOf(t)))
      else Some(NoRule)
    else
      Some(NoRule)
  }

  /** The chain classifies every tag as util/parser.go does, except username
      links: one without an href panics, and one whose href yields no user id
      is no rule at all. */
  lemma ExamineAgrees(t: Token)
    ensures !IsUsernameLink(t) ==> Examine(t) == Some(Parser.Classify(t))
    ensures IsUsernameLink(t) ==> (Examine(t).None? <==> TagAttr("a", "href", t).None?)
    ensures IsUsernameLink(t) && Examine(t).Some? ==>
      Examine(t).value == (if UserIdOf(t).Some? then UsernameLink(UserIdOf(t)) else NoRule)
  {
  }

  /**
   * `parseQuestion` as a function: an error when either envelope field is
   * missing, the nil dereference when the scan reaches a username link
   * without an href, and otherwise the question the scan collected.
   */
  function Parsed(env: Envelope): (r: Result<Question, ParseError>)
    ensures r == Failure(UnexpectedDocument) <==> env.questionId.None? || env.questionHtml.None?
    ensures r == Failure(NilDereference) <==>
      env.questionId.Some? && env.questionHtml.Some? && Events(Examine, env.questionHtml.value, 0).None?
    ensures r.Success? ==> r.value.id == env.questionId.value
  {
    if env.questionHtml.None? || env.questionId.None? then Failure(UnexpectedDocument)
    else
      match Events(Examine, env.questionHtml.value, 0)
      case None => Failure(NilDereference)
      case Some(evs) =>
        var s := Run(Start, evs);
        Success(Question(env.questionId.value, s.json, s.answers))
  }

  /** The `id` branch of the chain: the answer id when the value matches
      `answer-<digits>` and the digits parse; nothing otherwise. */
  method OnAnswerDiv(id: string, answer: Answer) returns (after: Answer)
    ensures match AnswerIdSubmatch(id)
      case None => after == answer
      case Some(d) => after == if ParseUint64(d).Some? then answer.(id := ParseUint64(d).value) else answer
  {
    after := answer;
    var m := FindSubmatch(AnswerIdRx, id);
    if m.Some? {
      var res := ParseUint64(m.value);
      if res.Some? {
        after := answer.(id := res.value);
      }
    }
  }

  /** The username branch of the chain: the href is read without a nil
      check; an answer is appended only when it yields a user id. */
  method OnAuthorLink(t: Token, state: ScanState) returns (after: Option<ScanState>)
    ensures after.None? <==> TagAttr("a", "href", t).None?
    ensures after.Some? ==>
      after.value == if UserIdOf(t).Some? then Apply(state, AppendAnswer(UserIdOf(t))) else state
  {
    var href := GetAttr("a", "href", t);
    if href.None? {
      // the href is read through a nil attribute
      return None;
    }
    after := Some(state);
    var m := FindSubmatch(UserIdRx, href.value.val);
    if m.Some? {
      var res := ParseUint64(m.value);
      if res.Some? {
        var answer := state.current.(userId := res.value);
        after := Some(ScanState(state.json, state.answers + [answer], NoAnswer));
      }
    }
  }

  /**
   * The start-tag arm of the token loop of fetch.go: examines `toks[i]` with
   * `getAttr` in the order of the chain and updates the question JSON, the
   * answers and the in-progress answer; `None` when the href it reads is nil.
   * `consumed` tells whether it read the token after the tag.
   */
  method OnStartTag(toks: seq<Token>, i: nat, state: ScanState) returns (after: Option<ScanState>, consumed: bool)
    requires i < |toks|
    ensures after == AtStartTag(state, Examine(toks[i]), At(toks, i + 1))
    ensures consumed <==> Examine(toks[i]) == Some(LdJsonScript)
  {
    var tok := toks[i];
    ghost var rule := Examine(tok);
    consumed := false;
    var attr := GetAttr("div", "question-data", tok);
    if attr.Some? {
      assert rule == Some(QuestionData(attr.value.val));
      after := Some(state.(json := attr.value.val));
    } else {
      attr := GetAttr("div", "id", tok);
      if attr.Some? {
        assert rule == Some(if AnswerIdOf(tok).Some? then AnswerId(AnswerIdOf(tok).value) else NoRule);
        var answer := OnAnswerDiv(attr.value.val, state.current);
        after := Some(state.(current := answer));
      } else {
        after, consumed := OnScriptOrLink(toks, i, state);
      }
    }
  }

  /** The last two links of the chain, reached when the tag is neither a
      question-data div nor a div with an id. */
  method OnScriptOrLink(toks: seq<Token>, i: nat, state: ScanState) returns (after: Option<ScanState>, consumed: bool)
    requires i < |toks|
    requires TagAttr("div", "question-data", toks[i]).None? && TagAttr("div", "id", toks[i]).None?
    ensures after == AtStartTag(state, Examine(toks[i]), At(toks, i + 1))
    ensures consumed <==> Examine(toks[i]) == Some(LdJsonScript)
  {
    var tok := toks[i];
    consumed := false;
    var attr := GetAttr("script", "type", tok);
    if attr.Some? {
      assert Examine(tok) == Some(if IsLdJsonScript(tok) then LdJsonScript else NoRule);
      after := Some(state);
      if attr.value.val == LdJsonType {
        // the text node next to the script tag
        after := Some(state.(current := state.current.(json := At(toks, i + 1).Data())));
        consumed := true;
      }
    } else {
      after := OnLink(tok, state);
    }
  }

  /** The last link of the chain, reached when the tag is neither a div with
      `question-data` or `id` nor a script with a `type`. */
  method OnLink(t: Token, state: ScanState) returns (after: Option<ScanState>)
    requires TagAttr("div", "question-data", t).None? && TagAttr("div", "id", t).None?
    requires TagAttr("script", "type", t).None?
    ensures after == AtStartTag(state, Examine(t), ErrorToken)
  {
    var attr := GetAttr("a", "class", t);
    if attr.Some? && attr.value.val == UsernameClass {
      after := OnAuthorLink(t, state);
    } else {
      assert Examine(t) == Some(NoRule);
      after := Some(state);
    }
  }

  /** `parseQuestion` on an envelope: the error for a missing field, the
      panic of the scan, or the question. */
  method ParseQuestion(env: Envelope) returns (r: Result<Question, ParseError>)
    ensures r == Parsed(env)
  {
    if env.questionHtml.None? || env.questionId.None? {
      return Failure(UnexpectedDocument);
    }
    var scanned := ScanTokens(env.questionHtml.value);
    if scanned.None? {
      r := Failure(NilDereference);
    } else {
      r := Success(Question(env.questionId.value, scanned.value.json, scanned.value.answers));
    }
  }

  /** The token loop of `parseQuestion`, with the tokenizer as a position in
      the token sequence: the final state, or nothing when a
      username link without an href panics. */
  method ScanTokens(toks: seq<Token>) returns (r: Option<ScanState>)
    ensures r == Finish(Start, Events(Examine, toks, 0))
  {
    var state := Start;
    ghost var final := Finish(Start, Events(Examine, toks, 0));
    var i := 0;
    while i < |toks| && !toks[i].ErrorToken?
      invariant i <= |toks|
      invariant Finish(state, Events(Examine, toks, i)) == final
      decreases |toks| - i
    {
      FinishStep(Examine, toks, i, state);
      if toks[i].StartTag? {
        var after, consumed := OnStartTag(toks, i, state);
        if after.None? {
          return None;
        }
        state := after.value;
        if consumed {
          // the tokenizer has moved on to the token after the script
          if At(toks, i + 1).ErrorToken? {
            break;
          }
          i := i + 1;
        }
      }
      i := i + 1;
    }
    r := Some(state);
  }

  // ----- what the scan produces, stated over the tokens -----

  /** Every username-link start tag of `ts` has an `href`. */
  predicate HrefsPresent(ts: seq<Token>) {
    forall k | 0 <= k < |ts| :: ts[k].StartTag? && IsUsernameLink(ts[k]) ==> TagAttr("a", "href", ts[k]).Some?
  }

  /** The user id a username-link start tag contributes, when its href
      yields one. */
  function LinkIdOf(t: Token): seq<uint64> {
    if t.StartTag? && IsUsernameLink(t) && UserIdOf(t).Some? then [UserIdOf(t).value] else []
  }

  /** The user ids of the username-link start tags of `ts` whose href yields
      one, in order; links without a valid id are not counted. */
  function ValidLinkUserIds(ts: seq<Token>): seq<uint64>
    decreases |ts|
  {
    if ts == [] then [] else LinkIdOf(ts[0]) + ValidLinkUserIds(ts[1..])
  }

  /** The chain appends exactly the ids `ValidLinkUserIds` lists. */
  lemma {:induction false} ExaminedLinkIds(ts: seq<Token>)
    ensures AppendedIds(Examine, ts) == ValidLinkUserIds(ts)
    decreases |ts|
  {
    if ts != [] {
      ExamineAgrees(ts[0]);
      ExaminedLinkIds(ts[1..]);
    }
  }

  /** A plain token stream whose username links all have an href is
      traversed tag by tag. */
  lemma PlainTraversed(toks: seq<Token>)
    requires Plain(toks) && HrefsPresent(toks)
    ensures PlainUnder(Examine, toks)
  {
    forall k | 0 <= k < |toks| && toks[k].StartTag?
      ensures Examine(toks[k]).Some?
    {
      ExamineAgrees(toks[k]);
    }
    forall k | 0 <= k < |toks| - 1 && toks[k].StartTag? && Examine(toks[k]) == Some(LdJsonScript)
      ensures !toks[k + 1].StartTag?
    {
      ExamineAgrees(toks[k]);
    }
  }

  /**
   * On a plain token stream whose username links all have an href, there is
   * one answer per username link whose href yields a user id, in document
   * order, carrying that id.
   */
  lemma AnswersFollowValidLinks(env: Envelope)
    requires env.questionId.Some? && env.questionHtml.Some?
    requires Plain(env.questionHtml.value) && HrefsPresent(env.questionHtml.value)
    ensures Parsed(env).Success?
    ensures UserIds(Parsed(env).value.answers) == ValidLinkUserIds(env.questionHtml.value)
  {
    var toks := env.questionHtml.value;
    PlainTraversed(toks);
    PlainUserIds(Examine, toks, 0);
    ExaminedLinkIds(toks);
    RunUserIds(Start, Events(Examine, toks, 0).value);
    assert toks[0..] == toks;
  }

  /** On a plain token stream, a username link without an href ends the scan
      in the nil dereference, wherever it stands. */
  lemma MissingHrefPanics(env: Envelope, k: nat)
    requires env.questionId.Some? && env.questionHtml.Some? && Plain(env.questionHtml.value)
    requires k < |env.questionHtml.value|
    requires var t := env.questionHtml.value[k];
      t.StartTag? && IsUsernameLink(t) && TagAttr("a", "href", t).None?
    ensures Parsed(env) == Failure(NilDereference)
  {
    var toks := env.questionHtml.value;
    forall j | 0 <= j < k && toks[j].StartTag? && Examine(toks[j]) == Some(LdJsonScript)
      ensures !toks[j + 1].StartTag?
    {
      ExamineAgrees(toks[j]);
      assert IsLdJsonScript(toks[j]);
    }
    ExamineAgrees(toks[k]);
    PanicStops(Examine, toks, 0, k);
  }

  /** A username link whose href yields no user id is passed over: the
      in-progress answer keeps its id and payload for the next link. */
  lemma InvalidLinkSkipped(toks: seq<Token>, i: nat)
    requires i < |toks| && toks[i].StartTag? && IsUsernameLink(toks[i])
    requires TagAttr("a", "href", toks[i]).Some? && UserIdOf(toks[i]).None?
    ensures Events(Examine, toks, i) == Events(Examine, toks, i + 1)
  {
  }

  // ----- agreement with util/parser.go -----

  /** Every username-link start tag of `ts` has an href that yields a user id. */
  predicate ValidLinks(ts: seq<Token>) {
    forall k | 0 <= k < |ts| :: ts[k].StartTag? && IsUsernameLink(ts[k]) ==> UserIdOf(ts[k]).Some?
  }

  lemma {:induction false} EventsAgree(toks: seq<Token>, i: nat)
    requires ValidLinks(toks)
    ensures Events(Examine, toks, i) == Events(Parser.Examine, toks, i)
    decreases |toks| - i
  {
    if i < |toks| {
      if toks[i].StartTag? {
        assert Examine(toks[i]) == Parser.Examine(toks[i]) by {
          ExamineAgrees(toks[i]);
        }
      }
      EventsAgree(toks, i + 1);
      EventsAgree(toks, i + 2);
    }
  }

  /** When every username link has an href with a user id, fetch.go and
      util/parser.go extract the same question. */
  lemma VersionsAgree(env: Envelope)
    requires env.questionHtml.Some? ==> ValidLinks(env.questionHtml.value)
    ensures Parsed(env) == Parser.Parsed(env)
  {
    if env.questionHtml.Some? {
      EventsAgree(env.questionHtml.value, 0);
      Parser.ExamineNeverFails(env.questionHtml.value, 0);
    }
  }
}
