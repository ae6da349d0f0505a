/**
  One rendered block as the markdown post-processor sees it, whether it may
  join a tab group, and the title its tab gets.
 */
module Blocks {
  import opened Wrappers
  import opened Text
  import opened Settings

  /** The tag of a block's child: a fenced code block renders as `PRE`, a plugin renderer's output as `DIV`. */
  datatype Kind = Pre | Div | OtherTag

  /** A rendered block's child element: its tag, its class list and its `data-meta` attribute. */
  datatype Node = Node(kind: Kind, classes: seq<string>, dataMeta: Option<string>)

  const LANGUAGE_MARK: string := "language-"

  /** The class prefix a plugin renderer's output carries; `slice(15)` drops exactly these 15 characters. */
  const BLOCK_LANGUAGE_PREFIX: string := "block-language-"

  /** The index of the first class that `keep` selects (`filter(...)[0]`), if any. */
  function FirstMatch(classes: seq<string>, keep: string -> bool): (r: Option<nat>)
    ensures r.Some? ==> r.value < |classes| && keep(classes[r.value])
    ensures r.Some? ==> forall j :: 0 <= j < r.value ==> !keep(classes[j])
    ensures r.None? ==> forall j :: 0 <= j < |classes| ==> !keep(classes[j])
  {
    if classes == [] then None
    else if keep(classes[0]) then Some(0)
    else match FirstMatch(classes[1..], keep)
      case Some(i) => Some(i + 1)
      case None => None
  }

  predicate HasLanguageMark(c: string) {
    Contains(c, LANGUAGE_MARK)
  }

  predicate HasBlockPrefix(c: string) {
    StartsWith(c, BLOCK_LANGUAGE_PREFIX)
  }

  /** The tab's language: the piece after the last "language-" of the first class containing it. */
  function ClassLang(classes: seq<string>): (r: Option<string>)
    ensures r.Some? <==> exists i :: 0 <= i < |classes| && HasLanguageMark(classes[i])
    ensures r.Some? ==> !Contains(r.value, LANGUAGE_MARK)
  {
    match FirstMatch(classes, HasLanguageMark)
    case Some(i) =>
      AfterLastIsLastPiece(classes[i], LANGUAGE_MARK);
      Some(AfterLast(classes[i], LANGUAGE_MARK))
    case None => None
  }

  /** A plugin block's language: the first `block-language-` class without that prefix. */
  function BlockLang(classes: seq<string>): (r: Option<string>)
    ensures r.Some? <==> exists i :: 0 <= i < |classes| && HasBlockPrefix(classes[i])
  {
    match FirstMatch(classes, HasBlockPrefix)
    case Some(i) =>
      Some(classes[i][|BLOCK_LANGUAGE_PREFIX|..])
    case None => None
  }

  /**
    Whether a block may join a tab group: it has exactly one child, and that
    child is a `PRE`, or a `DIV` whose language, lower-cased, is switched on
    in `extraLang`. Whether a renderer is registered for it plays no part.
   */
  predicate Eligible(el: seq<Node>, extraLang: map<string, bool>)
    ensures Eligible(el, extraLang) ==> |el| == 1
  {
    && |el| == 1
    && match el[0].kind
      case Pre => true
      case OtherTag => false
      case Div =>
        match BlockLang(el[0].classes)
        case Some(lang) => lang != [] && Enabled(extraLang, Lower(lang))
        case None => false
  }

  /** A single `PRE` child is always eligible; other tags never are; a `DIV` depends only on its first language class. */
  lemma EligibleCases(el: seq<Node>, extraLang: map<string, bool>)
    ensures Eligible(el, extraLang) ==> |el| == 1 && el[0].kind != OtherTag
    ensures |el| == 1 && el[0].kind == Pre ==> Eligible(el, extraLang)
    ensures |el| == 1 && el[0].kind == Div ==>
      var cs := el[0].classes;
      (Eligible(el, extraLang) <==>
        exists i :: 0 <= i < |cs| && HasBlockPrefix(cs[i])
          && (forall j :: 0 <= j < i ==> !HasBlockPrefix(cs[j]))
          && |cs[i]| > |BLOCK_LANGUAGE_PREFIX|
          && Enabled(extraLang, Lower(cs[i][|BLOCK_LANGUAGE_PREFIX|..])))
  {
    if |el| == 1 && el[0].kind == Div {
      var cs := el[0].classes;
      match FirstMatch(cs, HasBlockPrefix)
      case Some(i) =>
        forall i' | 0 <= i' < |cs| && HasBlockPrefix(cs[i']) && (forall j :: 0 <= j < i' ==> !HasBlockPrefix(cs[j]))
          ensures i' == i
        {
        }
      case None =>
    }
  }

  /** The title from the class list alone: the language if it is non-empty, else the default title. */
  function ClassTitle(node: Node, defaultTitle: string): (r: string)
    ensures r == defaultTitle || (ClassLang(node.classes) == Some(r) && r != [])
  {
    match ClassLang(node.classes)
    case Some(lang) => if lang != [] then lang else defaultTitle
    case None => defaultTitle
  }

  /**
    The tab's title. A non-empty `data-meta` attribute is handed to `parse`,
    which stands for `JSON.parse(decodeURI(meta)` with `'` made `"`)`.title`;
    when it yields a title, that title wins, and when it fails the class-derived
    title stays.
   */
  function TabTitle(node: Node, defaultTitle: string, parse: string -> Option<string>): (r: string)
  {
    match node.dataMeta
    case Some(meta) => if meta != [] then parse(meta).GetOr(ClassTitle(node, defaultTitle)) else ClassTitle(node, defaultTitle)
    case None => ClassTitle(node, defaultTitle)
  }

  /** The title's sources in order of priority: parsed metadata, then the class list, then the default title. */
  lemma TitlePriority(node: Node, defaultTitle: string, parse: string -> Option<string>)
    ensures node.dataMeta.Some? && node.dataMeta.value != [] && parse(node.dataMeta.value).Some? ==>
      TabTitle(node, defaultTitle, parse) == parse(node.dataMeta.value).value
    ensures (node.dataMeta.None? || node.dataMeta.value == [] || parse(node.dataMeta.value).None?) ==>
      TabTitle(node, defaultTitle, parse) == ClassTitle(node, defaultTitle)
    ensures (forall j :: 0 <= j < |node.classes| ==> !HasLanguageMark(node.classes[j])) ==>
      ClassTitle(node, defaultTitle) == defaultTitle
  {
  }

  /**
    When class `i` is the first one containing "language-", the class title is
    what follows its last "language-": a non-empty piece free of "language-"
    that the class ends with, right after a "language-"; an empty piece (a
    class ending in "language-") gives the default title.
   */
  lemma ClassTitleFromFirstLanguageClass(node: Node, defaultTitle: string, i: nat)
    requires i < |node.classes| && HasLanguageMark(node.classes[i])
    requires forall j :: 0 <= j < i ==> !HasLanguageMark(node.classes[j])
    ensures var c := node.classes[i]; var t := ClassTitle(node, defaultTitle);
      || (t == defaultTitle && AfterLast(c, LANGUAGE_MARK) == [])
      || (&& t == AfterLast(c, LANGUAGE_MARK) && t != [] && !Contains(t, LANGUAGE_MARK)
          && |t| + |LANGUAGE_MARK| <= |c| && c[|c| - |t| - |LANGUAGE_MARK|..] == LANGUAGE_MARK + t)
  {
    var c := node.classes[i];
    var k := FirstMatch(node.classes, HasLanguageMark);
    assert k == Some(i);
    AfterLastIsLastPiece(c, LANGUAGE_MARK);
    var t := AfterLast(c, LANGUAGE_MARK);
    if t != [] {
      var m := |c| - |t|;
      assert c[m - |LANGUAGE_MARK|..] == c[m - |LANGUAGE_MARK|..m] + c[m..];
    }
  }

  /** With a non-empty default title and a parser that never yields an empty title, no tab is left blank. */
  lemma TitleNonEmpty(node: Node, defaultTitle: string, parse: string -> Option<string>)
    requires defaultTitle != []
    requires forall m :: parse(m).Some? ==> parse(m).value != []
    ensures TabTitle(node, defaultTitle, parse) != []
  {
  }

  /** `language-rust` with no metadata gives the tab "rust". */
  lemma RustExample(defaultTitle: string, parse: string -> Option<string>)
    ensures TabTitle(Node(Pre, ["language-rust"], None), defaultTitle, parse) == "rust"
  {
    assert OccursAt("language-rust", LANGUAGE_MARK, 0);
  }

  /** Metadata `{'title':'Demo'}` that parses wins over the class `language-python`. */
  lemma DemoExample(defaultTitle: string, parse: string -> Option<string>)
    requires parse("{'title':'Demo'}") == Some("Demo")
    ensures TabTitle(Node(Pre, ["language-python"], Some("{'title':'Demo'}")), defaultTitle, parse) == "Demo"
  {
  }

  /** A block with neither metadata nor a language class gets the current default title. */
  lemma DefaultExample(defaultTitle: string, parse: string -> Option<string>)
    ensures TabTitle(Node(Pre, ["hljs"], None), defaultTitle, parse) == defaultTitle
  {
  }
}
