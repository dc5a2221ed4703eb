# theqdb question extractor, in Dafny

theqdb collects questions and answers from thequestion.ru. The site serves each
question as a JSON document with a `questionId` and a `questionHTML` field.
The extractor decodes that document, runs the HTML tokenizer of
`golang.org/x/net/html` over the page and builds a `Question` from it. The
question has an id, a JSON payload and a list of `Answer` records, each with an
id, a JSON payload and the author's user id.

The repository holds two versions of the extractor, and both are modelled:

- `ParseQuestion` in util/parser.go is the current one. It examines each start
  tag with a small fluent matcher (`match`, `tag`, `attr`, `extract`, `to`,
  `toInt`, `val`) against four rules, in order:
  - a `div` with `question-data` sets the question JSON;
  - a `div` whose `id` is `answer-<digits>` sets the in-progress answer id;
  - a `<script type="application/ld+json">` reads the next token and stores its
    data as the in-progress answer JSON;
  - an `<a class="answer__account-username">` takes the user id from its
    `/account/<digits>` href, appends the in-progress answer and starts a zero
    one.
- `parseQuestion` in fetch.go is the older one. It uses `getAttr` and chooses
  its branch by which attribute is present. It appends only when the href
  yields a user id. A username link without any href dereferences a nil
  attribute.

The project is laid out as follows:

- `wrappers.dfy` holds `Option` and `Result`.
- `html.dfy` holds the token stream and the first-attribute lookup.
- `types.dfy` holds the records of util/types.go and the decoded envelope.
- `patterns.dfy` holds the two regular expressions, written as string
  functions, and `strconv.ParseUint(s, 10, 64)`.
- `scan.dfy` holds what both extractors share:
  - what each rule reads from a tag;
  - the events a start tag causes;
  - the transition table `Apply` and its fold `Run`;
  - the traversal `Events`, parameterised by how a start tag is classified.
- `parser.dfy` models util/parser.go:
  - the matcher as a class whose methods update `value` and `matched`;
  - the token loop as a method proved against `Parsed`;
  - the lemmas about what that loop produces.
- `fetch.dfy` models fetch.go:
  - `getAttr` as a loop;
  - the else-if chain as methods proved against `Parsed`;
  - the lemmas about the nil dereference and the skipped links;
  - the agreement of both versions when every link is valid.
- `scenarios.dfy` holds concrete pages and what each version makes of them.

## Model

| member | source | states |
|---|---|---|
| Html.TagAttrFirst | fetch.go:168-177 | `TagAttr`, what `getAttr` returns, has a value exactly when the tag has the name and some attribute has the key, and then it is the value of the first such attribute |
| Html.KeyIndex | util/parser.go:93-99 | the attribute scan stops at the first attribute with the key: every earlier key differs, and the index is the length when none matches |
| Patterns.ParseUint64 | util/parser.go:125 | `ParseUint` succeeds exactly on a non-empty string of ASCII digits whose value is below 2^64, and then gives that value |
| Patterns.ParseDecimal | util/parser.go:125 | parsing the decimal rendering of any 64-bit value gives the value back |
| Patterns.AnswerIdSubmatch | util/parser.go:67 | when `^answer-(\d+)$` matches, the string is `answer-` followed by the group, which is a non-empty digit run |
| Patterns.AnswerIdSubmatchOf | util/parser.go:67 | every `answer-<digits>` string matches, with exactly those digits as the group |
| Patterns.UserIdSubmatch | util/parser.go:70 | `^/account/(\d+)` matches exactly when a digit follows the prefix; the group is the maximal digit run there, whatever follows it |
| Patterns.UserIdSubmatchOf | util/parser.go:70 | `/account/<digits><rest>` captures exactly the digits when `rest` does not start with a digit |
| Scan.Apply | util/parser.go:37-56 | each event changes only its own field; an append keeps every earlier answer, adds one answer carrying the in-progress id and JSON and the link's user id (or the in-progress one when the link gives none), and resets the in-progress answer to the zero record |
| Scan.Run | util/parser.go:30-61 | answers are only added at the end, one per append event |
| Scan.RunUserIds | util/parser.go:50-55 | the appended user ids are those of the append events, in order, 0 for a link without one |
| Scan.RunQuestionJson | util/parser.go:39-41 | the question JSON is the payload of the last question-data event, or the starting one |
| Scan.RunWithinSegment | util/parser.go:39-48 | between appends the last question JSON, answer id and answer JSON seen win, and the answers do not change |
| Scan.AnswerFromSegment | util/parser.go:50-55 | an append stores the last id and JSON seen since the previous append and resets the in-progress answer |
| Scan.TrailingEventsDropped | util/parser.go:63 | events after the last append leave the returned answers unchanged |
| Scan.Events | util/parser.go:30-61 | the token loop of both versions as the list of events it causes, or a panic; it stops at the first error token, only start tags are classified, and an ld+json script also consumes the next token; at most one event per remaining token |
| Scan.EventsConcat | util/parser.go:30-61 | the events of two joined token streams are the events of each, when the first has no error token and does not end with an ld+json script |
| Scan.FinishStep | util/parser.go:31-59 | one turn of the token loop: a non-start tag is skipped, a start tag applies its rule, and a script also skips the token after it, or ends the scan at an error token |
| Scan.PanicStops | fetch.go:149-150 | a start tag whose classification panics ends the whole scan in that panic, when every earlier tag is examined |
| Scan.PanicHasCause | fetch.go:126-163 | a panicking scan always has a start tag whose classification panics, the converse of `PanicStops` |
| Scan.PlainUserIds | util/parser.go:37-56 | when every tag is examined, the appended user ids are those of the username links the classifier finds, in document order |
| Parser.Matcher.constructor | util/parser.go:81-83 | `match` starts a chain that holds, on the given token |
| Parser.Matcher.Tag | util/parser.go:85-88 | `tag` restarts the chain: it holds exactly when the token's name is the given one |
| Parser.Matcher.Attr | util/parser.go:90-102 | `attr` selects the first attribute with the key; it fails when there is none, and a failed chain stays failed and keeps its value |
| Parser.Matcher.Extract | util/parser.go:104-113 | `extract` replaces the value by the capture group; it fails when the pattern does not match, and a failed chain stays failed |
| Parser.Matcher.To | util/parser.go:115-120 | `to` writes the value only when the chain holds, and reports whether it holds |
| Parser.Matcher.ToInt | util/parser.go:122-131 | `toInt` holds only if the chain held and the value parses; only then is the target overwritten |
| Parser.Matcher.Val | util/parser.go:133-135 | `val` holds exactly when the chain holds and selected that string |
| Parser.Classify | util/parser.go:37-56 | first rule wins: a question-data div is not examined for an id; an answer id needs a full `answer-<digits>` match that fits in 64 bits; a username link keeps the href's user id or none |
| Parser.ExamineNeverFails | util/parser.go:30-61 | the current version's scan never panics |
| Parser.Parsed | util/parser.go:19-23 | an error exactly when `questionId` or `questionHTML` is missing; otherwise a question with the envelope's id |
| Parser.QuestionDataChain | util/parser.go:39 | the chain holds exactly for a div with `question-data` and writes that value, or leaves the JSON as it was |
| Parser.AnswerIdChain | util/parser.go:42 | the chain holds exactly when the div's id yields an answer id, and writes it, or leaves the id as it was |
| Parser.LdJsonChain | util/parser.go:45 | the chain holds exactly for an ld+json script |
| Parser.UsernameChain | util/parser.go:50 | the chain holds exactly for a username link |
| Parser.UserIdChain | util/parser.go:51 | the user id becomes the href's id, or stays as it was when the href gives none |
| Parser.OnStartTag | util/parser.go:37-56 | one start tag moves the scan state by its rule's event, and the tokenizer reads one more token exactly for an ld+json script |
| Parser.ParseQuestion | util/parser.go:13-64 | the function returns what `Parsed` specifies |
| Parser.ScanTokens | util/parser.go:30-61 | the token loop ends in the state the traversal of the tokens specifies, including the stop at an error token right after a script |
| Parser.PlainEvents | util/parser.go:37-56 | when every tag is examined, the appends follow the username links and the last question-data event is the last question-data div |
| Parser.AnswersFollowUsernameLinks | util/parser.go:50-56 | one answer per username link, in document order, each with the href's user id or 0 |
| Parser.QuestionJsonFromLastDiv | util/parser.go:39-41 | the question JSON is the `question-data` of the last div carrying one, or empty |
| Parser.NoLinksNoAppends | util/parser.go:50-55 | tokens without username links append no answer |
| Parser.TokenEventsConcat | util/parser.go:30-61 | the scan of two joined token streams is the scan of each in turn, when the first does not end with a script or contain an error token |
| Parser.UnfinishedAnswerDropped | util/parser.go:54-63 | tokens after the last username link never change the answers, so an answer id or JSON that no later link completes is dropped |
| Fetch.GetAttr | fetch.go:168-177 | `getAttr` returns the first attribute with the key exactly when the tag name matches and one exists, and nil otherwise |
| Fetch.Examine | fetch.go:134-157 | the else-if chain on one start tag: it panics exactly for a username link without an href; it is the script rule exactly for an ld+json script; a username rule always carries the href's user id |
| Fetch.ExamineAgrees | fetch.go:134-157 | the chain classifies every tag as util/parser.go does, except username links: one without an href panics, and one whose href yields no user id is passed over |
| Fetch.Parsed | fetch.go:115-119 | `UnexpectedDocument` exactly when a field is missing; `NilDereference` exactly when both are present and the scan panics; otherwise the envelope's id |
| Fetch.OnAnswerDiv | fetch.go:137-141 | the in-progress id changes only on a full `answer-<digits>` match whose digits parse |
| Fetch.OnAuthorLink | fetch.go:148-157 | a nil href panics; otherwise an answer is appended and the in-progress answer reset exactly when the href yields a user id, and nothing changes otherwise |
| Fetch.OnStartTag | fetch.go:133-158 | one start tag moves the state as the classification says, panics on a username link without an href, and reads one more token exactly for an ld+json script |
| Fetch.OnScriptOrLink | fetch.go:142-157 | the same for the last two branches of the chain |
| Fetch.OnLink | fetch.go:147-157 | the same for the username-link branch: a link without the username class changes nothing |
| Fetch.ParseQuestion | fetch.go:109-166 | the function returns what `Parsed` specifies, including the panic |
| Fetch.ScanTokens | fetch.go:126-163 | the token loop ends in the state the traversal specifies, or in the panic |
| Fetch.ExaminedLinkIds | fetch.go:147-156 | the chain appends exactly the user ids of the links whose href yields one |
| Fetch.PlainTraversed | fetch.go:132-158 | on a stream where every tag is examined and every username link has an href, the chain never panics |
| Fetch.AnswersFollowValidLinks | fetch.go:147-156 | one answer per username link whose href yields a user id, in document order, carrying that id |
| Fetch.MissingHrefPanics | fetch.go:149-150 | a username link without an href makes the whole parse panic, wherever it stands |
| Fetch.InvalidLinkSkipped | fetch.go:150-156 | a username link whose href yields no user id is passed over, leaving the in-progress answer for a later link |
| Fetch.EventsAgree | fetch.go:133-158 | when every username-link start tag yields a user id, both chains cause the same events |
| Fetch.VersionsAgree | fetch.go:109-166 | when every username-link start tag yields a user id, fetch.go and util/parser.go extract the same question |
| Scenarios.QuestionDivRule | util/parser.go:39 | a `question-data` div is the question-data rule in both versions |
| Scenarios.AnswerDivRule | util/parser.go:42 | `answer-<n>` for any 64-bit `n` is the answer-id rule with `n` in both versions |
| Scenarios.LdScriptRule | util/parser.go:45 | the ld+json script is the script rule in both versions |
| Scenarios.AccountLinkRule | util/parser.go:50-51 | a username link to `/account/<n>` appends user id `n` in both versions |
| Scenarios.BadLinkRule | fetch.go:150-151 | a username link whose href has no account id appends without an id in util/parser.go and is passed over in fetch.go |
| Scenarios.OneAnswerEvents | util/parser.go:37-56 | under either classifier, a question div, an answer div, a script with its text and a username link give those four events in order |
| Scenarios.OneAnswerParsed | util/parser.go:13-64 | such a page gives exactly the question payload and one answer with that id, JSON and user id |
| Scenarios.OneAnswerFetched | fetch.go:109-166 | the same page gives the same question in fetch.go |
| Scenarios.OneAnswerExample | util/parser.go:13-64 | the example page gives exactly the answer `{42, {"x":1}, 9001}` in both versions |
| Scenarios.BadLinkParserSplits | util/parser.go:50-55 | util/parser.go splits an answer whose first author link has no account id into two answers |
| Scenarios.BadLinkFetchSkips | fetch.go:150-156 | fetch.go keeps that answer whole, with the second link's user id |
| Scenarios.ScriptSwallowsNextTag | util/parser.go:45-48 | a start tag right after an ld+json script is not examined: its name becomes the answer JSON and no answer is appended |

## Left out

- JSON decoding is not modelled. The envelope is given already decoded, as two optional fields, and a JSON syntax error is not one of the outcomes.
- The `.(float64)` assertion and conversion of `questionId` are not modelled. Both versions panic when `questionId` is present but not a JSON number; the model has no such outcome. The id is taken as a 64-bit value, and fetch.go's `int` id is treated the same way.
- The `.(string)` assertion on `questionHTML` is not modelled. The HTML field is given as a token sequence.
- The tokenizer's internals are not modelled: lowercasing, entity decoding and raw-text handling inside `<script>`. The token sequence is the input, and the error token stands for the end of input.
- The regular expression engine is replaced by the string functions in `patterns.dfy`.
- `main`, `fetchQuestion`, `getProxyList`, util/config.go and the URL template are network, file and flag I/O. util/config.go is not part of this model.
- Answers are records, not pointers. A pointer is never written after it is appended, because `answer` is reassigned to a fresh record at once.
- fetch.go's nil dereference is modelled as the `NilDereference` outcome rather than as a runtime panic or a caller precondition.
- Parser.AnswersFollowUsernameLinks: stated only for token streams where no error token appears before the end and no ld+json script is followed directly by a start tag. On other streams a tag is hidden from the rules, as Scenarios.ScriptSwallowsNextTag shows.
- Parser.QuestionJsonFromLastDiv: stated only for the same streams, for the same reason.
- Fetch.AnswersFollowValidLinks: stated only for the same streams in which, additionally, every username link has an href. Without an href the parse panics, as Fetch.MissingHrefPanics states.
- Fetch.MissingHrefPanics: stated only for the same streams, since a tag hidden behind a script or after an error token is never examined.
- Parser.UnfinishedAnswerDropped: stated for a split whose first part has no error token and does not end with an ld+json script.
