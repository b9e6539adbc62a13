/**
 * The graph-inspection dialog: which graph types are ticked, which of the seven
 * canned queries that selection stands for, the dialog's status banner, and the
 * colour scheme inferred from the labels of the returned nodes.
 */
module GraphView {
  import opened Types

  datatype GraphType = Document | Entities | Chunks

  /** The selection the dialog opens with. */
  const InitialSelection: seq<GraphType> := [Entities]

  predicate NoDuplicates(s: seq<GraphType>)
  {
    forall i, j :: 0 <= i < j < |s| ==> s[i] != s[j]
  }

  // ---------------------------------------------------------------------------
  // Toggling a checkbox
  // ---------------------------------------------------------------------------

  /** `Array.prototype.indexOf`: the first position of `g`, or -1. */
  function IndexOf(s: seq<GraphType>, g: GraphType): (i: int)
    ensures -1 <= i < |s|
    ensures i == -1 <==> g !in s
    ensures 0 <= i ==> s[i] == g && g !in s[..i]
  {
    if s == [] then -1
    else if s[0] == g then 0
    else
      var j := IndexOf(s[1..], g);
      assert j >= 0 ==> s[..j + 1] == [s[0]] + s[1..][..j];
      if j == -1 then -1 else j + 1
  }

  /** The sequence with the first occurrence of `g` taken out (unchanged when there is none). */
  function RemoveFirst(s: seq<GraphType>, g: GraphType): seq<GraphType>
  {
    if s == [] then []
    else if s[0] == g then s[1..]
    else [s[0]] + RemoveFirst(s[1..], g)
  }

  /** What ticking or unticking `g` means: an absent type joins at the end, a present one leaves. */
  function Toggled(s: seq<GraphType>, g: GraphType): seq<GraphType>
  {
    if g in s then RemoveFirst(s, g) else s + [g]
  }

  /** Splicing one element out at the first position of `g` removes the first occurrence. */
  lemma {:induction false} SpliceIsRemoveFirst(s: seq<GraphType>, g: GraphType, i: int)
    requires 0 <= i < |s| && s[i] == g && g !in s[..i]
    ensures s[..i] + s[i + 1..] == RemoveFirst(s, g)
  {
    if i == 0 {
      assert s[..0] + s[1..] == s[1..];
    } else {
      var t := s[1..];
      assert s[0] in s[..i];
      assert t[..i - 1] == s[1..i];
      assert forall x :: x in s[1..i] ==> x in s[..i];
      SpliceIsRemoveFirst(t, g, i - 1);
      assert s[..i] == [s[0]] + t[..i - 1];
      assert s[i + 1..] == t[i..];
    }
  }

  lemma {:induction false} RemoveFirstCount(s: seq<GraphType>, g: GraphType)
    requires g in s
    ensures multiset(RemoveFirst(s, g)) == multiset(s) - multiset{g}
  {
    assert s == [s[0]] + s[1..];
    assert multiset(s) == multiset{s[0]} + multiset(s[1..]);
    if s[0] != g {
      assert g in s[1..];
      RemoveFirstCount(s[1..], g);
      assert multiset(RemoveFirst(s, g)) == multiset{s[0]} + multiset(RemoveFirst(s[1..], g));
    }
  }

  /** Toggling an absent type appends it and leaves the rest as it was; toggling a present
      type removes exactly its one (first) occurrence and keeps the others in order. */
  lemma ToggleSpec(s: seq<GraphType>, g: GraphType)
    ensures g !in s ==> Toggled(s, g) == s + [g]
    ensures g in s ==>
      var i := IndexOf(s, g);
      && 0 <= i && s[i] == g && g !in s[..i]
      && Toggled(s, g) == s[..i] + s[i + 1..]
      && multiset(Toggled(s, g)) == multiset(s) - multiset{g}
  {
    if g in s {
      SpliceIsRemoveFirst(s, g, IndexOf(s, g));
      RemoveFirstCount(s, g);
    }
  }

  /** Taking position `i` out of a duplicate-free sequence keeps it duplicate-free and loses
      exactly the value at `i`. */
  lemma SpliceKeepsNoDuplicates(s: seq<GraphType>, i: int)
    requires NoDuplicates(s) && 0 <= i < |s|
    ensures NoDuplicates(s[..i] + s[i + 1..])
    ensures forall x :: x in s[..i] + s[i + 1..] <==> x in s && x != s[i]
  {
    var t := s[..i] + s[i + 1..];
    assert forall k :: 0 <= k < |t| ==> t[k] == s[if k < i then k else k + 1];
    forall x | x in s && x != s[i] ensures x in t {
      var k :| 0 <= k < |s| && s[k] == x;
      assert t[if k < i then k else k - 1] == x;
    }
  }

  lemma AppendKeepsNoDuplicates(s: seq<GraphType>, g: GraphType)
    requires NoDuplicates(s) && g !in s
    ensures NoDuplicates(s + [g])
  {
  }

  /** Toggling keeps the selection free of duplicates and flips exactly the membership of `g`. */
  lemma ToggleKeepsNoDuplicates(s: seq<GraphType>, g: GraphType)
    requires NoDuplicates(s)
    ensures NoDuplicates(Toggled(s, g))
    ensures forall x :: x in Toggled(s, g) <==> (x in s) != (x == g)
  {
    if g in s {
      var i := IndexOf(s, g);
      SpliceIsRemoveFirst(s, g, i);
      SpliceKeepsNoDuplicates(s, i);
    } else {
      AppendKeepsNoDuplicates(s, g);
    }
  }

  /** Ticking an unticked type and then unticking it again restores the selection. */
  lemma {:induction false} ToggleTwiceRestores(s: seq<GraphType>, g: GraphType)
    requires g !in s
    ensures Toggled(Toggled(s, g), g) == s
  {
    AppendRemoveFirst(s, g);
  }

  lemma {:induction false} AppendRemoveFirst(s: seq<GraphType>, g: GraphType)
    requires g !in s
    ensures RemoveFirst(s + [g], g) == s
  {
    if s != [] {
      assert (s + [g])[1..] == s[1..] + [g];
      AppendRemoveFirst(s[1..], g);
    }
  }

  /** A checkbox is disabled while its type is the only one ticked. */
  predicate CheckboxDisabled(s: seq<GraphType>, g: GraphType)
  {
    g in s && |s| == 1
  }

  /** A click on a checkbox: a disabled one does not fire its change handler. */
  function Click(s: seq<GraphType>, g: GraphType): seq<GraphType>
  {
    if CheckboxDisabled(s, g) then s else Toggled(s, g)
  }

  /** The selection after a series of clicks on a freshly opened dialog. */
  function Replay(clicks: seq<GraphType>): seq<GraphType>
  {
    if clicks == [] then InitialSelection
    else Click(Replay(clicks[..|clicks| - 1]), clicks[|clicks| - 1])
  }

  /** A click keeps a non-empty, duplicate-free selection non-empty and duplicate-free. */
  lemma ClickKeepsValid(s: seq<GraphType>, g: GraphType)
    requires NoDuplicates(s) && |s| > 0
    ensures NoDuplicates(Click(s, g)) && |Click(s, g)| > 0
  {
    if !CheckboxDisabled(s, g) {
      ToggleKeepsNoDuplicates(s, g);
      if g in s {
        assert |s| >= 2;
        var other := if s[0] == g then s[1] else s[0];
        assert other in s && other != g;
        assert other in Click(s, g);
      }
    }
  }

  /** Whatever the user clicks, the selection is never empty and never repeats a type. */
  lemma {:induction false} ReachableSelectionValid(clicks: seq<GraphType>)
    ensures NoDuplicates(Replay(clicks)) && |Replay(clicks)| > 0
  {
    if clicks != [] {
      ReachableSelectionValid(clicks[..|clicks| - 1]);
      ClickKeepsValid(Replay(clicks[..|clicks| - 1]), clicks[|clicks| - 1]);
    }
  }

  // ---------------------------------------------------------------------------
  // Query selection
  // ---------------------------------------------------------------------------

  /** The seven keys of the query table. */
  datatype QueryKey =
    | DocumentQuery | ChunksQuery | EntitiesQuery
    | DocEntitiesQuery | DocChunksQuery | ChunksEntitiesQuery | DocChunkEntitiesQuery

  /** The conditional chain that picks the query, in its own order of tests. */
  function QueryFor(s: seq<GraphType>): QueryKey
  {
    if |s| == 3 then DocChunkEntitiesQuery
    else if Entities in s && Chunks in s then ChunksEntitiesQuery
    else if Entities in s && Document in s then DocEntitiesQuery
    else if Document in s && Chunks in s then DocChunksQuery
    else if Entities in s && |s| == 1 then EntitiesQuery
    else if Chunks in s && |s| == 1 then ChunksQuery
    else DocumentQuery
  }

  /** The query each combination of ticked boxes stands for. */
  function QueryForTicked(doc: bool, ent: bool, chk: bool): QueryKey
  {
    match (doc, ent, chk)
    case (true, true, true) => DocChunkEntitiesQuery
    case (false, true, true) => ChunksEntitiesQuery
    case (true, true, false) => DocEntitiesQuery
    case (true, false, true) => DocChunksQuery
    case (false, true, false) => EntitiesQuery
    case (false, false, true) => ChunksQuery
    case (true, false, false) => DocumentQuery
    case (false, false, false) => DocumentQuery
  }

  /** The set of ticked types. */
  function Ticked(s: seq<GraphType>): set<GraphType>
  {
    set g | g in s
  }

  lemma {:induction false} DistinctCount(s: seq<GraphType>)
    requires NoDuplicates(s)
    ensures |Ticked(s)| == |s|
  {
    if s != [] {
      var init, last := s[..|s| - 1], s[|s| - 1];
      assert NoDuplicates(init) by {
        forall i, j | 0 <= i < j < |init| ensures init[i] != init[j] {
          assert init[i] == s[i] && init[j] == s[j];
        }
      }
      DistinctCount(init);
      assert s == init + [last];
      assert Ticked(s) == Ticked(init) + {last};
      assert last !in Ticked(init) by {
        forall k | 0 <= k < |init| ensures init[k] != last {
          assert init[k] == s[k];
        }
      }
    }
  }

  lemma SubsetCard(a: set<GraphType>, b: set<GraphType>)
    requires a <= b
    ensures |a| <= |b|
  {
    assert b * a == a;
    assert |b - a| == |b| - |b * a|;
  }

  /** A duplicate-free selection has at most three entries, exactly three when all types are
      ticked, and exactly one when a single type is ticked. */
  lemma SelectionSize(s: seq<GraphType>)
    requires NoDuplicates(s)
    ensures |s| <= 3
    ensures |s| == 3 <==> (Document in s && Entities in s && Chunks in s)
    ensures forall g :: Ticked(s) == {g} ==> |s| == 1
  {
    DistinctCount(s);
    var t := Ticked(s);
    assert t <= {Document, Entities, Chunks} by {
      forall g | g in t ensures g in {Document, Entities, Chunks} { }
    }
    SubsetCard(t, {Document, Entities, Chunks});
    if Document !in s { SubsetCard(t, {Entities, Chunks}); }
    if Entities !in s { SubsetCard(t, {Document, Chunks}); }
    if Chunks !in s { SubsetCard(t, {Document, Entities}); }
    if Document in s && Entities in s && Chunks in s {
      SubsetCard({Document, Entities, Chunks}, t);
    }
  }

  /** On every selection the dialog can be in, the conditional chain agrees with the table. */
  lemma QueryForMatchesTable(s: seq<GraphType>)
    requires NoDuplicates(s)
    ensures QueryFor(s) == QueryForTicked(Document in s, Entities in s, Chunks in s)
  {
    SelectionSize(s);
    var t := Ticked(s);
    if t == {Entities} || t == {Chunks} || t == {Document} {
      assert |s| == 1;
    }
  }

  // ---------------------------------------------------------------------------
  // Colour scheme
  // ---------------------------------------------------------------------------

  /** The text of a JavaScript array of labels used as an object key: elements joined by ','. */
  function SchemeKey(labels: seq<string>): string
  {
    if labels == [] then ""
    else if |labels| == 1 then labels[0]
    else labels[0] + "," + SchemeKey(labels[1..])
  }

  /** `labels[0]`, which is undefined for a node without labels. */
  function FirstLabel(labels: seq<string>): Nullable<string>
  {
    if labels == [] then Undefined else Val(labels[0])
  }

  /** All label lists of all returned records, record by record. */
  function Flatten(records: seq<seq<seq<string>>>): seq<seq<string>>
  {
    if records == [] then [] else records[0] + Flatten(records[1..])
  }

  /** One visit of the colour loop: a key not yet in the scheme gets its colour. */
  function Visit(m: map<string, string>, l: seq<string>, wordColor: Nullable<string> -> string): map<string, string>
  {
    if SchemeKey(l) in m then m else m[SchemeKey(l) := wordColor(FirstLabel(l))]
  }

  /** Visiting `ls` in order, starting from the scheme `m`. */
  function Fold(m: map<string, string>, ls: seq<seq<string>>, wordColor: Nullable<string> -> string): map<string, string>
    decreases |ls|
  {
    if ls == [] then m else Fold(Visit(m, ls[0], wordColor), ls[1..], wordColor)
  }

  /** The scheme built from `ls`: a key gets its colour on first sight only. */
  function SchemeOf(ls: seq<seq<string>>, wordColor: Nullable<string> -> string): map<string, string>
  {
    Fold(map[], ls, wordColor)
  }

  /** Visiting two lists is visiting the first, then the second. */
  lemma {:induction false} FoldAppend(m: map<string, string>, a: seq<seq<string>>, b: seq<seq<string>>,
                                      wordColor: Nullable<string> -> string)
    ensures Fold(m, a + b, wordColor) == Fold(Fold(m, a, wordColor), b, wordColor)
    decreases |a|
  {
    if a != [] {
      assert (a + b)[0] == a[0] && (a + b)[1..] == a[1..] + b;
      FoldAppend(Visit(m, a[0], wordColor), a[1..], b, wordColor);
    } else {
      assert a + b == b;
    }
  }

  /** The keys of the visited lists, as object keys. */
  function KeysOf(ls: seq<seq<string>>): set<string>
  {
    set l | l in ls :: SchemeKey(l)
  }

  lemma KeysOfCons(ls: seq<seq<string>>)
    requires ls != []
    ensures KeysOf(ls) == {SchemeKey(ls[0])} + KeysOf(ls[1..])
  {
    assert ls == [ls[0]] + ls[1..];
  }

  /** Visiting adds exactly the keys of the visited lists. */
  lemma {:induction false} FoldKeys(m: map<string, string>, ls: seq<seq<string>>, wordColor: Nullable<string> -> string)
    ensures Fold(m, ls, wordColor).Keys == m.Keys + KeysOf(ls)
    decreases |ls|
  {
    if ls != [] {
      FoldKeys(Visit(m, ls[0], wordColor), ls[1..], wordColor);
      KeysOfCons(ls);
    }
  }

  /** Visiting changes no colour already present. */
  lemma {:induction false} FoldKeeps(m: map<string, string>, ls: seq<seq<string>>, wordColor: Nullable<string> -> string)
    ensures forall k :: k in m ==> k in Fold(m, ls, wordColor) && Fold(m, ls, wordColor)[k] == m[k]
    decreases |ls|
  {
    if ls != [] {
      FoldKeeps(Visit(m, ls[0], wordColor), ls[1..], wordColor);
    }
  }

  /** The scheme has one key per distinct label list, and no other. */
  lemma SchemeKeys(ls: seq<seq<string>>, wordColor: Nullable<string> -> string)
    ensures SchemeOf(ls, wordColor).Keys == KeysOf(ls)
  {
    FoldKeys(map[], ls, wordColor);
  }

  /** First occurrence wins: a key's colour comes from the first label list that has that key. */
  lemma SchemeFirstOccurrence(ls: seq<seq<string>>, wordColor: Nullable<string> -> string, i: int)
    requires 0 <= i < |ls|
    requires forall j :: 0 <= j < i ==> SchemeKey(ls[j]) != SchemeKey(ls[i])
    ensures SchemeKey(ls[i]) in SchemeOf(ls, wordColor)
    ensures SchemeOf(ls, wordColor)[SchemeKey(ls[i])] == wordColor(FirstLabel(ls[i]))
  {
    var before, after := ls[..i], ls[i..];
    assert ls == before + after;
    FoldAppend(map[], before, after, wordColor);
    var m := Fold(map[], before, wordColor);
    FoldKeys(map[], before, wordColor);
    forall l | l in before ensures SchemeKey(l) != SchemeKey(ls[i]) {
      var j :| 0 <= j < |before| && before[j] == l;
    }
    var m' := Visit(m, ls[i], wordColor);
    assert Fold(m, after, wordColor) == Fold(m', after[1..], wordColor);
    FoldKeeps(m', after[1..], wordColor);
  }

  /** The body of the inner `forEach`: colour a key not yet in the scheme and count it. */
  method VisitLabelList(scheme0: map<string, string>, keyCount0: nat, labelList: seq<string>,
                        wordColor: Nullable<string> -> string)
    returns (scheme: map<string, string>, keyCount: nat)
    requires keyCount0 == |scheme0|
    ensures scheme == Visit(scheme0, labelList, wordColor)
    ensures keyCount == |scheme|
  {
    scheme, keyCount := scheme0, keyCount0;
    if SchemeKey(labelList) !in scheme {
      scheme := scheme[SchemeKey(labelList) := wordColor(FirstLabel(labelList))];
      keyCount := keyCount + 1;
    }
  }

  /** The inner `forEach`: the label lists of one record's nodes, visited in order. */
  method AddLabelLists(scheme0: map<string, string>, keyCount0: nat, labels: seq<seq<string>>,
                       wordColor: Nullable<string> -> string)
    returns (scheme: map<string, string>, keyCount: nat)
    requires keyCount0 == |scheme0|
    ensures scheme == Fold(scheme0, labels, wordColor)
    ensures keyCount == |scheme|
  {
    scheme, keyCount := scheme0, keyCount0;
    var k := 0;
    while k < |labels|
      invariant 0 <= k <= |labels|
      invariant Fold(scheme, labels[k..], wordColor) == Fold(scheme0, labels, wordColor)
      invariant keyCount == |scheme|
    {
      assert labels[k..][1..] == labels[k + 1..];
      scheme, keyCount := VisitLabelList(scheme, keyCount, labels[k], wordColor);
      k := k + 1;
    }
  }

  /** The colour loop: every label list of every node gets a colour under its key the first
      time that key is seen, and `keyCount` counts the keys added. */
  method BuildColorScheme(records: seq<seq<seq<string>>>, wordColor: Nullable<string> -> string)
    returns (scheme: map<string, string>, keyCount: nat)
    ensures scheme == SchemeOf(Flatten(records), wordColor)
    ensures scheme.Keys == KeysOf(Flatten(records))
    ensures keyCount == |scheme|
  {
    keyCount := 0;
    scheme := map[];
    var r := 0;
    while r < |records|
      invariant 0 <= r <= |records|
      invariant Fold(scheme, Flatten(records[r..]), wordColor) == SchemeOf(Flatten(records), wordColor)
      invariant keyCount == |scheme|
    {
      assert records[r..][1..] == records[r + 1..];
      FoldAppend(scheme, records[r], Flatten(records[r + 1..]), wordColor);
      scheme, keyCount := AddLabelLists(scheme, keyCount, records[r], wordColor);
      r := r + 1;
    }
    SchemeKeys(Flatten(records), wordColor);
  }

  // ---------------------------------------------------------------------------
  // The dialog
  // ---------------------------------------------------------------------------

  datatype Status = Unknown | Success | Danger

  /** The query text handed to the database, kept symbolic: the two query builders
      are not part of this model. */
  datatype Query =
    | GraphQuery(key: QueryKey, documentNo: string)
    | DocumentGraphQuery(key: QueryKey)

  /** How the database call ended: the records' node label lists; the query's error; or an
      exception raised while the records were being read (a node field that is not a list of
      nodes, or the word-colour function throwing), which the same `catch` receives. */
  datatype QueryOutcome =
    | Records(records: seq<seq<seq<string>>>)
    | QueryError(message: string)
    | CallbackThrew(message: string)

  class GraphViewModal {
    const inspectedName: string
    const viewPoint: string
    var open: bool
    var graphType: seq<GraphType>
    var documentNo: string
    var loading: bool
    var status: Status
    var statusMessage: string

    /** The selection is never empty and never repeats a type. */
    ghost predicate Valid()
      reads this
    {
      NoDuplicates(graphType) && |graphType| > 0
    }

    constructor (inspectedName: string, viewPoint: string, open: bool)
      ensures Valid()
      ensures this.inspectedName == inspectedName && this.viewPoint == viewPoint && this.open == open
      ensures graphType == InitialSelection && documentNo == "3"
      ensures !loading && status == Unknown && statusMessage == ""
    {
      this.inspectedName := inspectedName;
      this.viewPoint := viewPoint;
      this.open := open;
      graphType := InitialSelection;
      documentNo := "3";
      loading := false;
      status := Unknown;
      statusMessage := "";
    }

    /** The change handler: copy the selection, then push the type or splice it out. */
    method HandleCheckboxChange(graph: GraphType)
      modifies this`graphType
      ensures graphType == Toggled(old(graphType), graph)
    {
      var currentIndex := IndexOf(graphType, graph);
      var newGraphSelected := graphType;
      if currentIndex == -1 {
        newGraphSelected := newGraphSelected + [graph];
      } else {
        SpliceIsRemoveFirst(graphType, graph, currentIndex);
        newGraphSelected := newGraphSelected[..currentIndex] + newGraphSelected[currentIndex + 1..];
      }
      graphType := newGraphSelected;
    }

    /** A click on the checkbox of `graph`, which does nothing while the checkbox is disabled. */
    method ClickCheckbox(graph: GraphType)
      requires Valid()
      modifies this`graphType
      ensures Valid()
      ensures graphType == Click(old(graphType), graph)
    {
      if !CheckboxDisabled(graphType, graph) {
        HandleCheckboxChange(graph);
      }
      ClickKeepsValid(old(graphType), graph);
    }

    /** The effect that runs the query: when the dialog is open it picks the query for the
        current selection and marks the dialog as loading; the query is run only when a
        database driver is present, so without one the dialog stays loading. */
    method StartQuery(hasDriver: bool) returns (q: Option<Query>)
      modifies this`loading
      ensures !old(open) ==> q == None && loading == old(loading)
      ensures open ==> loading
      ensures open && !hasDriver ==> q == None
      ensures open && hasDriver && viewPoint == "showGraphView" ==>
        q == Some(GraphQuery(QueryFor(graphType), documentNo))
      ensures open && hasDriver && viewPoint != "showGraphView" ==>
        q == Some(DocumentGraphQuery(QueryFor(graphType)))
    {
      if !open {
        return None;
      }
      var newCheck := QueryFor(graphType);
      var queryToRun;
      if viewPoint == "showGraphView" {
        queryToRun := GraphQuery(newCheck, documentNo);
      } else {
        queryToRun := DocumentGraphQuery(newCheck);
      }
      loading := true;
      q := if hasDriver then Some(queryToRun) else None;
    }

    /** The query settles: records build the colour scheme; no records or an error raise the
        danger banner. Loading ends either way. */
    method QuerySettled(outcome: QueryOutcome, wordColor: Nullable<string> -> string)
      returns (scheme: map<string, string>, keyCount: nat)
      modifies this`loading, this`status, this`statusMessage
      ensures !loading
      ensures outcome.Records? && outcome.records != [] ==>
        && status == old(status) && statusMessage == old(statusMessage)
        && scheme == SchemeOf(Flatten(outcome.records), wordColor) && keyCount == |scheme|
      ensures outcome.Records? && outcome.records == [] ==>
        status == Danger && statusMessage == "Unable to retrieve document graph for " + inspectedName
      ensures outcome.QueryError? || outcome.CallbackThrew? ==>
        status == Danger && statusMessage == outcome.message
    {
      scheme, keyCount := map[], 0;
      match outcome
      case Records(records) =>
        if records != [] {
          scheme, keyCount := BuildColorScheme(records, wordColor);
          loading := false;
        } else {
          loading := false;
          status := Danger;
          statusMessage := "Unable to retrieve document graph for " + inspectedName;
        }
      case QueryError(message) =>
        loading := false;
        status := Danger;
        statusMessage := message;
      case CallbackThrew(message) =>
        loading := false;
        status := Danger;
        statusMessage := message;
    }

    /** Closing the dialog clears the banner and tells the parent to hide it. */
    method Close()
      modifies this`status, this`statusMessage, this`open
      ensures status == Unknown && statusMessage == "" && !open
    {
      status := Unknown;
      statusMessage := "";
      open := false;
    }

    /** Closing the banner only resets the status; the message stays. */
    method DismissBanner()
      modifies this`status
      ensures status == Unknown
    {
      status := Unknown;
    }
  }
}
