/**
 * The token stream produced by the golang.org/x/net/html tokenizer, as the
 * extractors see it: a sequence of tokens, each with its `Data` string and its
 * ordered attribute list.
 */
module Html {
  import opened Wrappers

  /** One `key="val"` pair of a tag, in source order. */
  datatype Attribute = Attribute(key: string, val: string)

  /**
   * The token kinds the tokenizer reports. `ErrorToken` is what it yields at
   * the end of the input (and for ever after).
   */
  datatype Token =
    | ErrorToken
    | Text(text: string)
    | StartTag(name: string, attr: seq<Attribute>)
    | EndTag(name: string)
    | SelfClosingTag(name: string, attr: seq<Attribute>)
    | Comment(text: string)
    | Doctype(text: string)
  {
    /** `Token().Data`: the tag name of a tag, the text of a text, comment or
        doctype token, and the empty string for an error token. */
    function Data(): string {
      match this
      case ErrorToken => ""
      case Text(s) => s
      case StartTag(n, _) => n
      case EndTag(n) => n
      case SelfClosingTag(n, _) => n
      case Comment(s) => s
      case Doctype(s) => s
    }

    /** `Token().Attr`: the attribute list of a start or self-closing tag. */
    function Attrs(): seq<Attribute> {
      match this
      case StartTag(_, a) => a
      case SelfClosingTag(_, a) => a
      case _ => []
    }
  }

  /** The token the tokenizer yields at position `i`: past the end of the input
      it keeps yielding `ErrorToken`. */
  function At(toks: seq<Token>, i: nat): Token {
    if i < |toks| then toks[i] else ErrorToken
  }

  /** The position of the first attribute whose key is `key`, or `|attrs|` if
      there is none. */
  function KeyIndex(attrs: seq<Attribute>, key: string): (k: nat)
    ensures k <= |attrs|
    ensures forall j | 0 <= j < k :: attrs[j].key != key
    ensures k < |attrs| ==> attrs[k].key == key
    decreases |attrs|
  {
    if attrs == [] || attrs[0].key == key then 0 else 1 + KeyIndex(attrs[1..], key)
  }

  /** The value of the first attribute with key `key`. */
  function FirstAttr(attrs: seq<Attribute>, key: string): Option<string> {
    var k := KeyIndex(attrs, key);
    if k < |attrs| then Some(attrs[k].val) else None
  }

  /** The value of the first `attrName` attribute of `t`, when `t` is a
      `tagName` tag; nothing otherwise. */
  function TagAttr(tagName: string, attrName: string, t: Token): Option<string> {
    if t.Data() == tagName then FirstAttr(t.Attrs(), attrName) else None
  }

  /** `TagAttr` is what `getAttr` finds: a value exactly when the tag has the
      name and some attribute has the key, and then the value of the first
      such attribute. */
  lemma TagAttrFirst(tagName: string, attrName: string, t: Token)
    ensures TagAttr(tagName, attrName, t).Some? <==>
      t.Data() == tagName && exists k | 0 <= k < |t.Attrs()| :: t.Attrs()[k].key == attrName
    ensures TagAttr(tagName, attrName, t).Some? ==>
      exists k | 0 <= k < |t.Attrs()| ::
        t.Attrs()[k] == Attribute(attrName, TagAttr(tagName, attrName, t).value) &&
        forall j | 0 <= j < k :: t.Attrs()[j].key != attrName
  {
    var k := KeyIndex(t.Attrs(), attrName);
    if t.Data() == tagName && k < |t.Attrs()| {
      assert t.Attrs()[k] == Attribute(attrName, TagAttr(tagName, attrName, t).value);
    }
  }
}
