/**
  The markdown post-processor that turns runs of adjacent code blocks into one
  tabbed container, and the click handler that switches tabs.

  The closure's shared variables (`codeblockCount`, `lastEl`, `tabs`,
  `tabContents`) become the fields of `PostProcessor`. The elements the
  processor is handed are kept, in delivery order, in `page`; `tabs` and
  `tabContents` are the two lists of the container at `page[lastEl]`.
 */
module Grouping {
  import opened Wrappers
  import opened Settings
  import opened Blocks

  /** The render context: whether it has a `displayMode` property, and whether it sits inside an embedded preview. */
  datatype Context = Context(displayMode: bool, embedded: bool) {
    predicate Skipped() {
      displayMode || embedded
    }
  }

  const PRIMARY: Context := Context(false, false)

  /** An entry of the tab strip (`li.tab-item`). */
  datatype Tab = Tab(title: string, active: bool)

  /** An entry of the content area (`div.tab-content`), holding the moved child. */
  datatype Pane = Pane(content: Node, active: bool)

  /**
    A delivered element as it now stands: a block with its children (none once
    its child has moved into a pane), or a `tab-container` with its tab strip
    and its content area.
   */
  datatype Element = Block(children: seq<Node>) | Container(tabs: seq<Tab>, panes: seq<Pane>)

  /** The post-processor's state: the counter, the remembered first block and every element handed over so far. */
  datatype Pass = Pass(count: nat, lastEl: nat, page: seq<Element>)

  /** Tab `a` and its paired pane are active, and no other tab or pane is. */
  predicate ActiveAt(tabs: seq<Tab>, panes: seq<Pane>, a: int)
    requires |tabs| == |panes|
  {
    forall i :: 0 <= i < |tabs| ==> (tabs[i].active <==> i == a) && (panes[i].active <==> i == a)
  }

  /** Exactly one tab is active, and so is its pane, and nothing else. */
  predicate OneActive(tabs: seq<Tab>, panes: seq<Pane>) {
    |tabs| == |panes| && exists a :: 0 <= a < |tabs| && ActiveAt(tabs, panes, a)
  }

  predicate WellFormed(e: Element) {
    e.Container? ==> |e.tabs| >= 2 && OneActive(e.tabs, e.panes)
  }

  /**
    What holds between calls: every container has two tabs or more and one
    active tab/pane pair; while a run is open `lastEl` is a delivered element,
    still the untouched eligible block after one block and the container
    holding `count` tabs after more.
   */
  predicate Inv(s: Pass) {
    && (forall j :: 0 <= j < |s.page| ==> WellFormed(s.page[j]))
    && (s.count >= 1 ==> s.lastEl < |s.page|)
    && (s.count == 1 ==> s.page[s.lastEl].Block? && |s.page[s.lastEl].children| == 1)
    && (s.count >= 2 ==> s.page[s.lastEl].Container? && |s.page[s.lastEl].tabs| == s.count)
  }

  /** `addTab`: one more tab/pane pair at the end of the container. */
  function WithTab(c: Element, node: Node, title: string, active: bool): (r: Element)
    requires c.Container?
    ensures r.Container? && |r.tabs| == |c.tabs| + 1 && |r.panes| == |c.panes| + 1
  {
    Container(c.tabs + [Tab(title, active)], c.panes + [Pane(node, active)])
  }

  lemma AppendInactive(c: Element, node: Node, title: string)
    requires c.Container? && OneActive(c.tabs, c.panes)
    ensures OneActive(WithTab(c, node, title, false).tabs, WithTab(c, node, title, false).panes)
  {
    var a :| 0 <= a < |c.tabs| && ActiveAt(c.tabs, c.panes, a);
    var r := WithTab(c, node, title, false);
    assert ActiveAt(r.tabs, r.panes, a);
  }

  /** The container made from the first block of a run: its one tab, active. */
  function Opened(first: Node, title: string): (r: Element)
    ensures r.Container? && |r.tabs| == |r.panes| == 1 && ActiveAt(r.tabs, r.panes, 0)
  {
    WithTab(Container([], []), first, title, true)
  }

  /**
    One call of the post-processor on element `el`. A skipped context changes
    nothing but the page; an ineligible block ends the run; the first eligible
    block is remembered; the second turns the remembered block into a
    container holding both; each later one adds a tab. A block whose child has
    moved into a pane stays behind empty.
   */
  function Step(s: Pass, el: seq<Node>, ctx: Context, settings: Settings, parse: string -> Option<string>): (r: Pass)
    requires Inv(s)
    ensures Inv(r)
    ensures |r.page| == |s.page| + 1
  {
    var page := s.page + [Block(el)];
    var here := |s.page|;
    if ctx.Skipped() then Pass(s.count, s.lastEl, page)
    else if !Eligible(el, settings.extraLang) then Pass(0, s.lastEl, page)
    else if s.count == 0 then Pass(1, here, page)
    else
      var host :=
        if s.count == 1 then
          var first := s.page[s.lastEl].children[0];
          Opened(first, TabTitle(first, settings.defaultTitle, parse))
        else s.page[s.lastEl];
      AppendInactive(host, el[0], TabTitle(el[0], settings.defaultTitle, parse));
      var grown := WithTab(host, el[0], TabTitle(el[0], settings.defaultTitle, parse), false);
      var r := Pass(s.count + 1, s.lastEl, page[s.lastEl := grown][here := Block([])]);
      assert WellFormed(r.page[s.lastEl]);
      r
  }

  /** A render pass delivering `els` in order, in primary contexts. */
  function Run(s: Pass, els: seq<seq<Node>>, settings: Settings, parse: string -> Option<string>): (r: Pass)
    requires Inv(s)
    ensures Inv(r)
    ensures |r.page| == |s.page| + |els|
    decreases |els|
  {
    if els == [] then s
    else Step(Run(s, els[..|els| - 1], settings, parse), els[|els| - 1], PRIMARY, settings, parse)
  }

  /** The tab strip a run of `els` should produce: tab `i` titled after block `i`, only the first active. */
  function TabsOf(els: seq<seq<Node>>, settings: Settings, parse: string -> Option<string>): seq<Tab>
    requires forall i :: 0 <= i < |els| ==> |els[i]| == 1
  {
    seq(|els|, i requires 0 <= i < |els| => Tab(TabTitle(els[i][0], settings.defaultTitle, parse), i == 0))
  }

  /** The content area a run of `els` should produce: pane `i` holds block `i`'s child, only the first active. */
  function PanesOf(els: seq<seq<Node>>): seq<Pane>
    requires forall i :: 0 <= i < |els| ==> |els[i]| == 1
  {
    seq(|els|, i requires 0 <= i < |els| => Pane(els[i][0], i == 0))
  }

  /** The second block of a run: the remembered block becomes a container holding both, the first tab active. */
  lemma StepOpens(s: Pass, el: seq<Node>, settings: Settings, parse: string -> Option<string>)
    requires Inv(s) && s.count == 1 && Eligible(el, settings.extraLang)
    ensures var r := Step(s, el, PRIMARY, settings, parse); var first := s.page[s.lastEl].children[0];
      && r.count == 2 && r.lastEl == s.lastEl && |r.page| == |s.page| + 1
      && (forall j :: 0 <= j < |s.page| && j != s.lastEl ==> r.page[j] == s.page[j])
      && r.page[|s.page|] == Block([])
      && r.page[s.lastEl] == Container(
           [Tab(TabTitle(first, settings.defaultTitle, parse), true), Tab(TabTitle(el[0], settings.defaultTitle, parse), false)],
           [Pane(first, true), Pane(el[0], false)])
  {
  }

  /** A later block of a run: one more inactive tab at the end of the container. */
  lemma StepGrows(s: Pass, el: seq<Node>, settings: Settings, parse: string -> Option<string>)
    requires Inv(s) && s.count >= 2 && Eligible(el, settings.extraLang)
    ensures var r := Step(s, el, PRIMARY, settings, parse); var c := s.page[s.lastEl];
      && r.count == s.count + 1 && r.lastEl == s.lastEl && |r.page| == |s.page| + 1
      && (forall j :: 0 <= j < |s.page| && j != s.lastEl ==> r.page[j] == s.page[j])
      && r.page[|s.page|] == Block([])
      && r.page[s.lastEl] == Container(c.tabs + [Tab(TabTitle(el[0], settings.defaultTitle, parse), false)],
                                        c.panes + [Pane(el[0], false)])
  {
  }

  /** The strip and the content area of a run grow by one entry per block, active only for the first. */
  lemma OfSnoc(els: seq<seq<Node>>, settings: Settings, parse: string -> Option<string>)
    requires |els| >= 1 && forall i :: 0 <= i < |els| ==> |els[i]| == 1
    ensures var front := els[..|els| - 1]; var last := els[|els| - 1][0];
      && TabsOf(els, settings, parse) == TabsOf(front, settings, parse) + [Tab(TabTitle(last, settings.defaultTitle, parse), |els| == 1)]
      && PanesOf(els) == PanesOf(front) + [Pane(last, |els| == 1)]
  {
    var front := els[..|els| - 1];
    assert forall i :: 0 <= i < |front| ==> front[i] == els[i];
  }

  /**
    A run of k >= 1 eligible blocks, started with the counter at 0, leaves the
    counter at k with the run's first block remembered; one block stays as it
    was, and with more every block after the first is left empty. Nothing
    delivered earlier changes.
   */
  lemma {:induction false} RunShape(s: Pass, els: seq<seq<Node>>, settings: Settings, parse: string -> Option<string>)
    requires Inv(s) && s.count == 0 && |els| >= 1
    requires forall i :: 0 <= i < |els| ==> Eligible(els[i], settings.extraLang)
    ensures var r := Run(s, els, settings, parse); var n := |s.page|;
      && r.count == |els| && r.lastEl == n
      && r.page[..n] == s.page
      && (|els| == 1 ==> r.page[n] == Block(els[0]))
      && (forall j :: n < j < |r.page| ==> r.page[j] == Block([]))
    decreases |els|
  {
    var k := |els|;
    var front := els[..k - 1];
    assert Run(s, els, settings, parse) == Step(Run(s, front, settings, parse), els[k - 1], PRIMARY, settings, parse);
    if k == 1 {
      assert front == [];
    } else {
      RunShape(s, front, settings, parse);
    }
  }

  /**
    Two or more eligible blocks in a row, started with the counter at 0, make
    the run's first block its container: k tabs in delivery order, each titled
    after its block, the panes holding the blocks' children, and only the
    first tab and the first pane active.
   */
  lemma {:induction false} RunGroups(s: Pass, els: seq<seq<Node>>, settings: Settings, parse: string -> Option<string>)
    requires Inv(s) && s.count == 0 && |els| >= 2
    requires forall i :: 0 <= i < |els| ==> |els[i]| == 1 && Eligible(els[i], settings.extraLang)
    ensures Run(s, els, settings, parse).page[|s.page|] == Container(TabsOf(els, settings, parse), PanesOf(els))
    decreases |els|
  {
    var k := |els|;
    if k == 2 {
      RunPairGroups(s, els, settings, parse);
    } else {
      RunGroups(s, els[..k - 1], settings, parse);
      RunGrowsGroup(s, els, settings, parse);
    }
  }

  /** The inductive step of `RunGroups`: one more eligible block adds its tab and pane to the run's container. */
  lemma RunGrowsGroup(s: Pass, els: seq<seq<Node>>, settings: Settings, parse: string -> Option<string>)
    requires Inv(s) && s.count == 0 && |els| >= 3
    requires forall i :: 0 <= i < |els| ==> |els[i]| == 1 && Eligible(els[i], settings.extraLang)
    requires var front := els[..|els| - 1];
      Run(s, front, settings, parse).page[|s.page|] == Container(TabsOf(front, settings, parse), PanesOf(front))
    ensures Run(s, els, settings, parse).page[|s.page|] == Container(TabsOf(els, settings, parse), PanesOf(els))
  {
    var k := |els|;
    var front := els[..k - 1];
    var p := Run(s, front, settings, parse);
    assert Run(s, els, settings, parse) == Step(p, els[k - 1], PRIMARY, settings, parse);
    RunShape(s, front, settings, parse);
    OfSnoc(els, settings, parse);
    StepGrows(p, els[k - 1], settings, parse);
  }

  /** The base case of `RunGroups`: two eligible blocks make a container of two tabs. */
  lemma RunPairGroups(s: Pass, els: seq<seq<Node>>, settings: Settings, parse: string -> Option<string>)
    requires Inv(s) && s.count == 0 && |els| == 2
    requires forall i :: 0 <= i < |els| ==> |els[i]| == 1 && Eligible(els[i], settings.extraLang)
    ensures Run(s, els, settings, parse).page[|s.page|] == Container(TabsOf(els, settings, parse), PanesOf(els))
  {
    var front := els[..1];
    var p := Run(s, front, settings, parse);
    assert Run(s, els, settings, parse) == Step(p, els[1], PRIMARY, settings, parse);
    RunShape(s, front, settings, parse);
    OfSnoc(els, settings, parse);
    StepOpens(p, els[1], settings, parse);
    OfSnoc(front, settings, parse);
    assert front[..0] == [];
  }

  /** A skipped context leaves the counter, the remembered block and every earlier element alone. */
  lemma SkipKeepsRun(s: Pass, el: seq<Node>, ctx: Context, settings: Settings, parse: string -> Option<string>)
    requires Inv(s) && ctx.Skipped()
    ensures var r := Step(s, el, ctx, settings, parse);
      r.count == s.count && r.lastEl == s.lastEl && r.page == s.page + [Block(el)]
  {
  }

  /** An ineligible block in a primary context ends the run: the counter drops to 0 and no element is rewritten. */
  lemma IneligibleEndsRun(s: Pass, el: seq<Node>, settings: Settings, parse: string -> Option<string>)
    requires Inv(s) && !Eligible(el, settings.extraLang)
    ensures var r := Step(s, el, PRIMARY, settings, parse);
      r.count == 0 && r.page == s.page + [Block(el)]
  {
  }

  /** A lone eligible block followed by an ineligible one is left as it was. */
  lemma LoneBlockUntouched(s: Pass, a: seq<Node>, b: seq<Node>, settings: Settings, parse: string -> Option<string>)
    requires Inv(s) && s.count == 0
    requires Eligible(a, settings.extraLang) && !Eligible(b, settings.extraLang)
    ensures Run(s, [a, b], settings, parse).page == s.page + [Block(a), Block(b)]
    ensures Run(s, [a, b], settings, parse).count == 0
  {
    assert [a, b][..1] == [a];
    assert [a][..0] == [];
    assert Run(s, [a], settings, parse) == Step(s, a, PRIMARY, settings, parse);
  }

  /** The closure's state and the elements it has been handed. */
  class PostProcessor {
    var count: nat
    var lastEl: nat
    var page: seq<Element>

    function State(): Pass
      reads this
    {
      Pass(count, lastEl, page)
    }

    ghost predicate Valid()
      reads this
    {
      Inv(State())
    }

    constructor ()
      ensures Valid() && State() == Pass(0, 0, [])
    {
      count, lastEl, page := 0, 0, [];
    }

    /**
      The post-processor callback on element `el`, with the settings as they
      are at the time of the call.
     */
    method Process(el: seq<Node>, ctx: Context, settings: Settings, parse: string -> Option<string>)
      requires Valid()
      modifies this
      ensures Valid()
      ensures State() == Step(old(State()), el, ctx, settings, parse)
    {
      page := page + [Block(el)];
      if ctx.displayMode {
        return;
      }
      if ctx.embedded {
        return;
      }
      if !Eligible(el, settings.extraLang) {
        count := 0;
        return;
      }
      var here := |page| - 1;
      if count == 0 {
        lastEl := here;
        count := count + 1;
      } else {
        ghost var host := page[lastEl];
        if count == 1 {
          var first := page[lastEl].children[0];
          page := page[lastEl := Container([], [])];
          AddTab(first, settings.defaultTitle, parse);
          host := Opened(first, TabTitle(first, settings.defaultTitle, parse));
        }
        assert page[lastEl] == host;
        count := count + 1;
        AddTab(el[0], settings.defaultTitle, parse);
        page := page[here := Block([])];
        ghost var r := Step(old(State()), el, ctx, settings, parse);
        assert r.count == count;
        assert r.lastEl == lastEl;
        assert r.page == page;
      }
    }

    /** `addTab`: appends a titled tab and a pane holding `node`; the pair is active only while the counter is 1. */
    method AddTab(node: Node, defaultTitle: string, parse: string -> Option<string>)
      requires lastEl < |page| && page[lastEl].Container?
      modifies this
      ensures count == old(count) && lastEl == old(lastEl)
      ensures page == old(page)[lastEl := WithTab(old(page)[lastEl], node, TabTitle(node, defaultTitle, parse), old(count) == 1)]
    {
      var title := TabTitle(node, defaultTitle, parse);
      var active := count == 1;
      var c := page[lastEl];
      page := page[lastEl := Container(c.tabs + [Tab(title, active)], c.panes + [Pane(node, active)])];
    }

    /**
      The click listener of tab `k` in the container at `page[host]`: every
      sibling tab loses `active`, then tab `k` gains it; likewise for the
      panes and pane `k`.
     */
    method Click(host: nat, k: nat)
      requires Valid()
      requires host < |page| && page[host].Container? && k < |page[host].tabs|
      modifies this
      ensures Valid()
      ensures count == old(count) && lastEl == old(lastEl) && |page| == |old(page)|
      ensures forall j :: 0 <= j < |page| && j != host ==> page[j] == old(page)[j]
      ensures page[host].Container? && ActiveAt(page[host].tabs, page[host].panes, k)
      ensures |page[host].tabs| == |old(page)[host].tabs| && |page[host].panes| == |old(page)[host].panes|
      ensures forall i :: 0 <= i < |page[host].tabs| ==>
        page[host].tabs[i] == old(page)[host].tabs[i].(active := i == k)
      ensures forall i :: 0 <= i < |page[host].panes| ==>
        page[host].panes[i] == old(page)[host].panes[i].(active := i == k)
    {
      ghost var tabs0 := page[host].tabs;
      ghost var panes0 := page[host].panes;
      var tabs := page[host].tabs;
      var i := 0;
      while i < |tabs|
        invariant 0 <= i <= |tabs| == |tabs0|
        invariant forall j :: 0 <= j < i ==> tabs[j] == tabs0[j].(active := false)
        invariant forall j :: i <= j < |tabs| ==> tabs[j] == tabs0[j]
      {
        tabs := tabs[i := tabs[i].(active := false)];
        i := i + 1;
      }
      tabs := tabs[k := tabs[k].(active := true)];

      var panes := page[host].panes;
      i := 0;
      while i < |panes|
        invariant 0 <= i <= |panes| == |panes0|
        invariant forall j :: 0 <= j < i ==> panes[j] == panes0[j].(active := false)
        invariant forall j :: i <= j < |panes| ==> panes[j] == panes0[j]
      {
        panes := panes[i := panes[i].(active := false)];
        i := i + 1;
      }
      panes := panes[k := panes[k].(active := true)];

      page := page[host := Container(tabs, panes)];
      assert ActiveAt(tabs, panes, k);
      assert WellFormed(page[host]);
    }
  }
}
