/** Concrete token streams and what the two extractors make of them. */
module Scenarios {
  import opened Wrappers
  import opened Html
  import opened Types
  import opened Patterns
  import opened Scan
  import Parser
  import Fetch

  // ----- the tags of a question page -----

  function QuestionDiv(q: string): Token {
    StartTag("div", [Attribute("question-data", q)])
  }

  function AnswerDiv(id: uint64): Token {
    StartTag("div", [Attribute("id", AnswerIdPrefix + Decimal(id))])
  }

  const LdScript := StartTag("script", [Attribute("type", LdJsonType)])

  function AuthorLink(href: string): Token {
    StartTag("a", [Attribute("class", UsernameClass), Attribute("href", href)])
  }

  function AccountHref(userId: uint64): string {
    AccountPrefix + Decimal(userId)
  }

  lemma QuestionDivRule(q: string)
    ensures Parser.Classify(QuestionDiv(q)) == QuestionData(q)
    ensures Fetch.Examine(QuestionDiv(q)) == Some(QuestionData(q))
  {
  }

  lemma AnswerDivRule(id: uint64)
    ensures Parser.Classify(AnswerDiv(id)) == AnswerId(id)
    ensures Fetch.Examine(AnswerDiv(id)) == Some(AnswerId(id))
  {
    DecimalDigits(id);
    AnswerIdSubmatchOf(Decimal(id));
    ParseDecimal(id);
  }

  lemma LdScriptRule()
    ensures Parser.Classify(LdScript) == LdJsonScript
    ensures Fetch.Examine(LdScript) == Some(LdJsonScript)
  {
  }

  lemma AuthorLinkHref(href: string)
    ensures IsUsernameLink(AuthorLink(href))
    ensures TagAttr("a", "href", AuthorLink(href)) == Some(href)
  {
    var t := AuthorLink(href);
    assert "class"[0] != "href"[0];
    assert t.Attrs()[1..] == [Attribute("href", href)];
    assert KeyIndex(t.Attrs(), "href") == 1;
  }

  lemma AccountLinkRule(userId: uint64)
    ensures Parser.Classify(AuthorLink(AccountHref(userId))) == UsernameLink(Some(userId))
    ensures Fetch.Examine(AuthorLink(AccountHref(userId))) == Some(UsernameLink(Some(userId)))
  {
    var href := AccountHref(userId);
    AuthorLinkHref(href);
    DecimalDigits(userId);
    assert href == AccountPrefix + Decimal(userId) + "";
    UserIdSubmatchOf(Decimal(userId), "");
    ParseDecimal(userId);
    assert UserIdOf(AuthorLink(href)) == Some(userId);
  }

  lemma BadLinkRule(href: string)
    requires UserIdSubmatch(href).None?
    ensures Parser.Classify(AuthorLink(href)) == UsernameLink(None)
    ensures Fetch.Examine(AuthorLink(href)) == Some(NoRule)
  {
    AuthorLinkHref(href);
  }

  // ----- the events of a page, one tag at a time -----

  lemma LastTag(examine: Token -> Option<Rule>, t: Token, r: Rule)
    requires t.StartTag? && examine(t) == Some(r) && !r.NoRule? && !r.LdJsonScript?
    ensures Events(examine, [t], 0) == Some([RuleEvent(r, ErrorToken)])
  {
    assert [RuleEvent(r, ErrorToken)] + [] == [RuleEvent(r, ErrorToken)];
  }

  lemma TagThen(examine: Token -> Option<Rule>, t: Token, rest: seq<Token>, r: Rule, evs: seq<Event>)
    requires t.StartTag? && examine(t) == Some(r) && !r.NoRule? && !r.LdJsonScript?
    requires Events(examine, rest, 0) == Some(evs)
    ensures Events(examine, [t] + rest, 0) == Some([RuleEvent(r, At(rest, 0))] + evs)
  {
    EventsShift(examine, [t], rest, 0);
    assert At([t] + rest, 1) == At(rest, 0);
  }

  lemma ScriptThen(examine: Token -> Option<Rule>, t: Token, text: Token, rest: seq<Token>, evs: seq<Event>)
    requires t.StartTag? && examine(t) == Some(LdJsonScript) && !text.ErrorToken?
    requires Events(examine, rest, 0) == Some(evs)
    ensures Events(examine, [t, text] + rest, 0) == Some([SetAnswerJson(text.Data())] + evs)
  {
    EventsShift(examine, [t, text], rest, 0);
  }

  lemma PassThen(examine: Token -> Option<Rule>, t: Token, rest: seq<Token>)
    requires !t.ErrorToken? && (t.StartTag? ==> examine(t) == Some(NoRule))
    ensures Events(examine, [t] + rest, 0) == Events(examine, rest, 0)
  {
    EventsShift(examine, [t], rest, 0);
  }

  /** The state after four events, one at a time. */
  lemma RunFour(s: ScanState, a: Event, b: Event, c: Event, d: Event)
    ensures Run(s, [a, b, c, d]) == Apply(Apply(Apply(Apply(s, a), b), c), d)
  {
    assert [a, b, c, d] == [a] + ([b] + ([c] + [d]));
    RunCons(s, a, [b] + ([c] + [d]));
    RunCons(Apply(s, a), b, [c] + [d]);
    RunCons(Apply(Apply(s, a), b), c, [d]);
    RunCons(Apply(Apply(Apply(s, a), b), c), d, []);
  }

  /** The id div and the ld+json script of an answer, before `rest`: they set
      the in-progress id and payload, whichever extractor classifies them. */
  lemma AnswerBodyThen(examine: Token -> Option<Rule>, id: uint64, payload: string, rest: seq<Token>, evs: seq<Event>)
    requires examine(AnswerDiv(id)) == Some(AnswerId(id)) && examine(LdScript) == Some(LdJsonScript)
    requires Events(examine, rest, 0) == Some(evs)
    ensures Events(examine, [AnswerDiv(id)] + ([LdScript, Text(payload)] + ([EndTag("script")] + rest)), 0)
         == Some([SetAnswerId(id)] + ([SetAnswerJson(payload)] + evs))
  {
    var r2 := [EndTag("script")] + rest;
    var r1 := [LdScript, Text(payload)] + r2;
    PassThen(examine, EndTag("script"), rest);
    ScriptThen(examine, LdScript, Text(payload), r2, evs);
    TagThen(examine, AnswerDiv(id), r1, AnswerId(id), [SetAnswerJson(payload)] + evs);
  }

  // ----- one complete answer -----

  /** A page with a question payload and one complete answer: its id div, its
      ld+json script with the payload text, and its author link. */
  function OneAnswerPage(q: string, id: uint64, payload: string, userId: uint64): seq<Token> {
    [QuestionDiv(q)] + ([AnswerDiv(id)] + ([LdScript, Text(payload)] + ([EndTag("script")] + [AuthorLink(AccountHref(userId))])))
  }

  /** Under any classifier that gives the four tags their rules, such a page
      yields the question payload, the answer id, the answer payload and one
      append carrying the user id, in that order. */
  lemma OneAnswerEvents(examine: Token -> Option<Rule>, q: string, id: uint64, payload: string, userId: uint64)
    requires examine(QuestionDiv(q)) == Some(QuestionData(q))
    requires examine(AnswerDiv(id)) == Some(AnswerId(id))
    requires examine(LdScript) == Some(LdJsonScript)
    requires examine(AuthorLink(AccountHref(userId))) == Some(UsernameLink(Some(userId)))
    ensures Events(examine, OneAnswerPage(q, id, payload, userId), 0)
         == Some([SetQuestionJson(q), SetAnswerId(id), SetAnswerJson(payload), AppendAnswer(Some(userId))])
  {
    var a, b, c, d := SetQuestionJson(q), SetAnswerId(id), SetAnswerJson(payload), AppendAnswer(Some(userId));
    var link := [AuthorLink(AccountHref(userId))];
    var body := [AnswerDiv(id)] + ([LdScript, Text(payload)] + ([EndTag("script")] + link));
    LastTag(examine, link[0], UsernameLink(Some(userId)));
    AnswerBodyThen(examine, id, payload, link, [d]);
    TagThen(examine, QuestionDiv(q), body, QuestionData(q), [b] + ([c] + [d]));
    assert [a] + ([b] + ([c] + [d])) == [a, b, c, d];
  }

  /** Such a page yields the question payload and exactly that one answer in
      the current extractor. */
  lemma OneAnswerParsed(qid: uint64, q: string, id: uint64, payload: string, userId: uint64)
    ensures Parser.Parsed(Envelope(Some(qid), Some(OneAnswerPage(q, id, payload, userId))))
         == Success(Question(qid, q, [Answer(id, payload, userId)]))
  {
    QuestionDivRule(q);
    AnswerDivRule(id);
    LdScriptRule();
    AccountLinkRule(userId);
    OneAnswerEvents(Parser.Examine, q, id, payload, userId);
    RunFour(Start, SetQuestionJson(q), SetAnswerId(id), SetAnswerJson(payload), AppendAnswer(Some(userId)));
  }

  /** And the same in the earlier extractor. */
  lemma OneAnswerFetched(qid: uint64, q: string, id: uint64, payload: string, userId: uint64)
    ensures Fetch.Parsed(Envelope(Some(qid), Some(OneAnswerPage(q, id, payload, userId))))
         == Success(Question(qid, q, [Answer(id, payload, userId)]))
  {
    QuestionDivRule(q);
    AnswerDivRule(id);
    LdScriptRule();
    AccountLinkRule(userId);
    OneAnswerEvents(Fetch.Examine, q, id, payload, userId);
    RunFour(Start, SetQuestionJson(q), SetAnswerId(id), SetAnswerJson(payload), AppendAnswer(Some(userId)));
  }

  lemma ExampleDecimals()
    ensures Decimal(42) == "42" && Decimal(9001) == "9001"
  {
  }

  /** The page of the example below, written out token by token. */
  lemma ExamplePage()
    ensures OneAnswerPage("{}", 42, "{\"x\":1}", 9001) ==
      [ StartTag("div", [Attribute("question-data", "{}")]),
        StartTag("div", [Attribute("id", "answer-42")]),
        StartTag("script", [Attribute("type", "application/ld+json")]),
        Text("{\"x\":1}"),
        EndTag("script"),
        StartTag("a", [Attribute("class", "answer__account-username"), Attribute("href", "/account/9001")]) ]
  {
    ExampleDecimals();
    assert AnswerIdPrefix + "42" == "answer-42";
    assert AccountPrefix + "9001" == "/account/9001";
  }

  /** `<div question-data="{}">`, `<div id="answer-42">`, an ld+json script
      with text `{"x":1}`, and a username link to `/account/9001` (the page
      `ExamplePage` spells out) give exactly the answer `{42, {"x":1}, 9001}`,
      in both extractors. */
  lemma OneAnswerExample()
    ensures Parser.Parsed(Envelope(Some(55), Some(OneAnswerPage("{}", 42, "{\"x\":1}", 9001))))
         == Success(Question(55, "{}", [Answer(42, "{\"x\":1}", 9001)]))
    ensures Fetch.Parsed(Envelope(Some(55), Some(OneAnswerPage("{}", 42, "{\"x\":1}", 9001))))
         == Success(Question(55, "{}", [Answer(42, "{\"x\":1}", 9001)]))
  {
    OneAnswerParsed(55, "{}", 42, "{\"x\":1}", 9001);
    OneAnswerFetched(55, "{}", 42, "{\"x\":1}", 9001);
  }

  // ----- an author link without a user id -----

  /** An author link whose href has no account id, then one whose href has. */
  function AuthorLinks(href: string, userId: uint64): seq<Token> {
    [AuthorLink(href)] + [AuthorLink(AccountHref(userId))]
  }

  /** An answer whose first author link has no account id in its href. */
  function BadLinkPage(id: uint64, payload: string, href: string, userId: uint64): seq<Token> {
    [AnswerDiv(id)] + ([LdScript, Text(payload)] + ([EndTag("script")] + AuthorLinks(href, userId)))
  }

  lemma AuthorLinksParserEvents(href: string, userId: uint64)
    requires UserIdSubmatch(href).None?
    ensures Events(Parser.Examine, AuthorLinks(href, userId), 0)
         == Some([AppendAnswer(None)] + [AppendAnswer(Some(userId))])
  {
    var e := Parser.Examine;
    var last := [AuthorLink(AccountHref(userId))];
    AccountLinkRule(userId);
    BadLinkRule(href);
    LastTag(e, last[0], UsernameLink(Some(userId)));
    TagThen(e, AuthorLink(href), last, UsernameLink(None), [AppendAnswer(Some(userId))]);
  }

  lemma AuthorLinksFetchEvents(href: string, userId: uint64)
    requires UserIdSubmatch(href).None?
    ensures Events(Fetch.Examine, AuthorLinks(href, userId), 0) == Some([AppendAnswer(Some(userId))])
  {
    var e := Fetch.Examine;
    var last := [AuthorLink(AccountHref(userId))];
    AccountLinkRule(userId);
    BadLinkRule(href);
    LastTag(e, last[0], UsernameLink(Some(userId)));
    PassThen(e, AuthorLink(href), last);
  }

  lemma BadLinkParserEvents(id: uint64, payload: string, href: string, userId: uint64)
    requires UserIdSubmatch(href).None?
    ensures Parser.TokenEvents(BadLinkPage(id, payload, href, userId))
         == [SetAnswerId(id), SetAnswerJson(payload), AppendAnswer(None), AppendAnswer(Some(userId))]
  {
    var a, b, c, d := SetAnswerId(id), SetAnswerJson(payload), AppendAnswer(None), AppendAnswer(Some(userId));
    AuthorLinksParserEvents(href, userId);
    AnswerDivRule(id);
    LdScriptRule();
    AnswerBodyThen(Parser.Examine, id, payload, AuthorLinks(href, userId), [c] + [d]);
    assert [a] + ([b] + ([c] + [d])) == [a, b, c, d];
  }

  /** util/parser.go appends an answer at every author link, so the answer
      is split in two: its id and payload with user id 0, then an empty answer
      with the second link's id. */
  lemma BadLinkParserSplits(qid: uint64, id: uint64, payload: string, href: string, userId: uint64)
    requires UserIdSubmatch(href).None?
    ensures Parser.Parsed(Envelope(Some(qid), Some(BadLinkPage(id, payload, href, userId))))
         == Success(Question(qid, "", [Answer(id, payload, 0), Answer(0, "", userId)]))
  {
    var a, b, c, d := SetAnswerId(id), SetAnswerJson(payload), AppendAnswer(None), AppendAnswer(Some(userId));
    BadLinkParserEvents(id, payload, href, userId);
    RunFour(Start, a, b, c, d);
    assert Run(Start, [a, b, c, d]) == ScanState("", [Answer(id, payload, 0), Answer(0, "", userId)], NoAnswer);
  }

  /** fetch.go passes over the first link and appends one answer with the id,
      the payload and the second link's id. */
  lemma BadLinkFetchSkips(qid: uint64, id: uint64, payload: string, href: string, userId: uint64)
    requires UserIdSubmatch(href).None?
    ensures Fetch.Parsed(Envelope(Some(qid), Some(BadLinkPage(id, payload, href, userId))))
         == Success(Question(qid, "", [Answer(id, payload, userId)]))
  {
    var a, b, d := SetAnswerId(id), SetAnswerJson(payload), AppendAnswer(Some(userId));
    AuthorLinksFetchEvents(href, userId);
    AnswerDivRule(id);
    LdScriptRule();
    AnswerBodyThen(Fetch.Examine, id, payload, AuthorLinks(href, userId), [d]);
    assert [a] + ([b] + [d]) == [a] + ([b] + ([d] + []));
    RunCons(Start, a, [b] + ([d] + []));
    RunCons(Apply(Start, a), b, [d] + []);
    RunCons(Apply(Apply(Start, a), b), d, []);
  }

  // ----- a script that swallows a tag -----

  /** A start tag right after an ld+json script is taken as the script's
      text: even an author link there appends no answer, and its tag name
      becomes the in-progress payload. */
  lemma ScriptSwallowsNextTag(href: string)
    ensures Run(Start, Parser.TokenEvents([LdScript, AuthorLink(href)])) == ScanState("", [], NoAnswer.(json := "a"))
  {
    LdScriptRule();
    ScriptThen(Parser.Examine, LdScript, AuthorLink(href), [], []);
    assert [LdScript, AuthorLink(href)] + [] == [LdScript, AuthorLink(href)];
  }
}
