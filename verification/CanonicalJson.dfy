/**
  The canonical serializer whose text is hashed everywhere: members without `undefined`,
  sorted by UTF-16 code units (RFC 8785, section 3.2.3), no white space.

  A finite number other than negative zero is represented by the text `JSON.stringify` prints
  for it, which is one text for each such number.
 */
module CanonicalJson {
  import opened Basics
  import opened JsonLexemes
  import opened JsonScanner

  datatype Pair<+T> = Pair(key: Text, val: T)

  datatype JsNumber = NonFinite | NegativeZero | Finite(digits: Text)

  /** A JavaScript value; `Unsupported` is a function, a symbol or a bigint. */
  datatype JsValue =
    | Undefined
    | Unsupported
    | JsNull
    | JsBool(b: bool)
    | JsNumber(n: JsNumber)
    | JsString(s: Text)
    | JsArray(items: seq<JsValue>)
    | JsObject(entries: seq<Pair<JsValue>>)

  ghost predicate DistinctKeys<T>(ps: seq<Pair<T>>) {
    forall i, j | 0 <= i < j < |ps| :: ps[i].key != ps[j].key
  }

  /** What JavaScript guarantees: the keys of an object differ, a number prints as a number. */
  ghost predicate IsJs(v: JsValue) {
    match v
    case JsNumber(Finite(d)) => NumberText(d) && d != [MINUS, ZERO]
    case JsArray(items) => forall i | 0 <= i < |items| :: IsJs(items[i])
    case JsObject(es) => DistinctKeys(es) && forall i | 0 <= i < |es| :: IsJs(es[i].val)
    case _ => true
  }

  // ---------------------------------------------------------------- sorting

  /** The source's `left < right` on strings. */
  predicate Less(a: Text, b: Text) {
    if b == [] then false
    else if a == [] then true
    else if a[0] != b[0] then a[0] < b[0]
    else Less(a[1..], b[1..])
  }

  lemma {:induction false} LessTotal(a: Text, b: Text)
    ensures Less(a, b) || a == b || Less(b, a)
    ensures Less(a, b) ==> a != b && !Less(b, a)
  {
    if a != [] && b != [] && a[0] == b[0] {
      LessTotal(a[1..], b[1..]);
      if a[1..] == b[1..] {
        assert a == [a[0]] + a[1..] == [b[0]] + b[1..] == b;
      }
    }
  }

  lemma {:induction false} LessTransitive(a: Text, b: Text, c: Text)
    requires Less(a, b) && Less(b, c)
    ensures Less(a, c)
  {
    if a != [] && a[0] == b[0] == c[0] {
      LessTransitive(a[1..], b[1..], c[1..]);
    }
  }

  function Insert<T>(p: Pair<T>, ps: seq<Pair<T>>): seq<Pair<T>> {
    if ps == [] || !Less(ps[0].key, p.key) then [p] + ps else [ps[0]] + Insert(p, ps[1..])
  }

  function SortByKey<T>(ps: seq<Pair<T>>): seq<Pair<T>> {
    if ps == [] then [] else Insert(ps[0], SortByKey(ps[1..]))
  }

  function ToMap<T>(ps: seq<Pair<T>>): (m: map<Text, T>)
    ensures forall p | p in ps :: p.key in m
    ensures forall k | k in m :: exists i :: 0 <= i < |ps| && ps[i] == Pair(k, m[k])
  {
    if ps == [] then map[] else ToMap(ps[1..])[ps[0].key := ps[0].val]
  }

  /** Strictly increasing keys. */
  ghost predicate Sorted<T>(ps: seq<Pair<T>>) {
    forall i, j | 0 <= i < j < |ps| :: Less(ps[i].key, ps[j].key)
  }

  lemma {:induction false} InsertFacts<T(!new)>(p: Pair<T>, ps: seq<Pair<T>>)
    requires Sorted(ps) && forall q | q in ps :: q.key != p.key
    ensures Sorted(Insert(p, ps))
    ensures forall q :: q in Insert(p, ps) <==> q == p || q in ps
    ensures |Insert(p, ps)| == |ps| + 1
  {
    if ps == [] {
    } else if !Less(ps[0].key, p.key) {
      LessTotal(ps[0].key, p.key);
      forall j | 0 <= j < |ps| ensures Less(p.key, ps[j].key) {
        if j > 0 {
          LessTransitive(p.key, ps[0].key, ps[j].key);
        }
      }
    } else {
      var tail := Insert(p, ps[1..]);
      InsertFacts(p, ps[1..]);
      forall q | q in tail ensures Less(ps[0].key, q.key) {
        if q != p {
          assert q in ps[1..];
          var j :| 0 <= j < |ps[1..]| && ps[1..][j] == q;
          assert Less(ps[0].key, ps[j + 1].key);
        }
      }
      assert ps == [ps[0]] + ps[1..];
    }
  }

  /** The order of `Array.prototype.sort` on distinct keys. */
  lemma {:induction false} SortFacts<T(!new)>(ps: seq<Pair<T>>)
    requires DistinctKeys(ps)
    ensures Sorted(SortByKey(ps))
    ensures forall q :: q in SortByKey(ps) <==> q in ps
    ensures |SortByKey(ps)| == |ps|
  {
    if ps != [] {
      SortFacts(ps[1..]);
      var tail := SortByKey(ps[1..]);
      forall q | q in tail ensures q.key != ps[0].key {
        assert q in ps[1..];
        var j :| 0 <= j < |ps[1..]| && ps[1..][j] == q;
        assert ps[0].key != ps[j + 1].key;
      }
      InsertFacts(ps[0], tail);
      assert ps == [ps[0]] + ps[1..];
    }
  }

  lemma {:induction false} SortedIsDistinct<T>(ps: seq<Pair<T>>)
    requires Sorted(ps)
    ensures DistinctKeys(ps)
  {
    forall i, j | 0 <= i < j < |ps| ensures ps[i].key != ps[j].key {
      LessTotal(ps[i].key, ps[j].key);
    }
  }

  lemma {:induction false} ToMapAt<T>(ps: seq<Pair<T>>, p: Pair<T>)
    requires DistinctKeys(ps) && p in ps
    ensures p.key in ToMap(ps) && ToMap(ps)[p.key] == p.val
  {
    if p != ps[0] {
      ToMapAt(ps[1..], p);
    }
  }

  /** Sorting is the only sorted arrangement of a set of members. */
  lemma {:induction false} SortedUnique<T(!new)>(ps: seq<Pair<T>>, qs: seq<Pair<T>>)
    requires Sorted(ps) && Sorted(qs) && forall p :: p in ps <==> p in qs
    ensures ps == qs
  {
    assert ps != [] ==> ps[0] in qs;
    assert qs != [] ==> qs[0] in ps;
    if ps != [] && qs != [] {
      HeadIsLeast(ps, qs);
      SortedIsDistinct(ps);
      SortedIsDistinct(qs);
      assert ps == [ps[0]] + ps[1..] && qs == [qs[0]] + qs[1..];
      assert forall p :: p in ps[1..] <==> p in ps && p != ps[0];
      assert forall p :: p in qs[1..] <==> p in qs && p != qs[0];
      SortedUnique(ps[1..], qs[1..]);
    }
  }

  lemma HeadIsLeast<T(!new)>(ps: seq<Pair<T>>, qs: seq<Pair<T>>)
    requires Sorted(ps) && Sorted(qs) && ps != [] && qs != [] && forall p :: p in ps <==> p in qs
    ensures ps[0] == qs[0]
  {
    assert ps[0] in qs && qs[0] in ps;
    if ps[0] != qs[0] {
      var i :| 0 < i < |ps| && ps[i] == qs[0];
      var j :| 0 < j < |qs| && qs[j] == ps[0];
      assert Less(ps[0].key, ps[i].key) && Less(qs[0].key, qs[j].key);
      LessTotal(ps[0].key, qs[0].key);
    }
  }

  lemma SameMapSameMembers<T(!new)>(ps: seq<Pair<T>>, qs: seq<Pair<T>>)
    requires DistinctKeys(ps) && DistinctKeys(qs) && ToMap(ps) == ToMap(qs)
    ensures forall p :: p in ps <==> p in qs
  {
    forall p | p in ps ensures p in qs { ToMapAt(ps, p); }
    forall p | p in qs ensures p in ps { ToMapAt(qs, p); }
  }

  lemma SubMap<T(!new)>(ps: seq<Pair<T>>, qs: seq<Pair<T>>)
    requires DistinctKeys(qs) && forall p :: p in ps ==> p in qs
    ensures forall k | k in ToMap(ps) :: k in ToMap(qs) && ToMap(qs)[k] == ToMap(ps)[k]
  {
    forall k | k in ToMap(ps) ensures k in ToMap(qs) && ToMap(qs)[k] == ToMap(ps)[k] {
      ToMapAt(qs, Pair(k, ToMap(ps)[k]));
    }
  }

  lemma SameMembersSameMap<T(!new)>(ps: seq<Pair<T>>, qs: seq<Pair<T>>)
    requires DistinctKeys(ps) && DistinctKeys(qs) && forall p :: p in ps <==> p in qs
    ensures ToMap(ps) == ToMap(qs)
  {
    SubMap(ps, qs);
    SubMap(qs, ps);
  }

  /** Members are sorted into one arrangement, whatever order they came in. */
  lemma SortOfSameMap<T(!new)>(ps: seq<Pair<T>>, qs: seq<Pair<T>>)
    requires DistinctKeys(ps) && DistinctKeys(qs) && ToMap(ps) == ToMap(qs)
    ensures SortByKey(ps) == SortByKey(qs)
  {
    SameMapSameMembers(ps, qs);
    SortFacts(ps);
    SortFacts(qs);
    SortedUnique(SortByKey(ps), SortByKey(qs));
  }

  function MapPairs<T, U>(ps: seq<Pair<T>>, f: T -> U): (qs: seq<Pair<U>>)
    ensures |qs| == |ps| && forall i | 0 <= i < |ps| :: qs[i] == Pair(ps[i].key, f(ps[i].val))
  {
    if ps == [] then [] else [Pair(ps[0].key, f(ps[0].val))] + MapPairs(ps[1..], f)
  }

  lemma {:induction false} InsertMap<T, U>(p: Pair<T>, ps: seq<Pair<T>>, f: T -> U)
    ensures Insert(Pair(p.key, f(p.val)), MapPairs(ps, f)) == MapPairs(Insert(p, ps), f)
  {
    if ps == [] {
    } else if !Less(ps[0].key, p.key) {
      assert ([p] + ps)[1..] == ps;
    } else {
      InsertMap(p, ps[1..], f);
      assert ([ps[0]] + Insert(p, ps[1..]))[1..] == Insert(p, ps[1..]);
      assert MapPairs(ps, f)[1..] == MapPairs(ps[1..], f);
    }
  }

  lemma {:induction false} SortMap<T, U>(ps: seq<Pair<T>>, f: T -> U)
    ensures SortByKey(MapPairs(ps, f)) == MapPairs(SortByKey(ps), f)
  {
    if ps != [] {
      SortMap(ps[1..], f);
      InsertMap(ps[0], SortByKey(ps[1..]), f);
      assert MapPairs(ps, f)[1..] == MapPairs(ps[1..], f);
    }
  }

  // ---------------------------------------------------------------- printing

  function Quote(s: Text): Text {
    [QUOTE] + (Escape(s) + [QUOTE])
  }

  /** `items.join(',')`. */
  function Join(texts: seq<Text>): Text {
    if texts == [] then [] else if |texts| == 1 then texts[0] else texts[0] + ([COMMA] + Join(texts[1..]))
  }

  function MemberTexts(ps: seq<Pair<Text>>): seq<Text> {
    if ps == [] then [] else [Quote(ps[0].key) + ([COLON] + ps[0].val)] + MemberTexts(ps[1..])
  }

  /** `canonicalJsonStringify(v)`; `None` when it throws. */
  function Print(v: JsValue): Option<Text> {
    match v
    case Undefined => None
    case Unsupported => None
    case JsNull => Some(NULL)
    case JsBool(b) => Some(if b then TRUE else FALSE)
    case JsNumber(NonFinite) => None
    case JsNumber(NegativeZero) => Some([ZERO])
    case JsNumber(Finite(d)) => Some(d)
    case JsString(s) => Some(Quote(s))
    case JsArray(items) =>
      var texts :- PrintItems(items);
      Some([LBRACKET] + (Join(texts) + [RBRACKET]))
    case JsObject(es) =>
      var members :- PrintEntries(es);
      Some([LBRACE] + (Join(MemberTexts(SortByKey(members))) + [RBRACE]))
  }

  function PrintItems(items: seq<JsValue>): Option<seq<Text>> {
    if items == [] then Some([])
    else
      var first :- Print(items[0]);
      var rest :- PrintItems(items[1..]);
      Some([first] + rest)
  }

  /** The members that are not `undefined`, with their values printed, in the given order. */
  function PrintEntries(es: seq<Pair<JsValue>>): Option<seq<Pair<Text>>> {
    if es == [] then Some([])
    else if es[0].val.Undefined? then PrintEntries(es[1..])
    else
      var first :- Print(es[0].val);
      var rest :- PrintEntries(es[1..]);
      Some([Pair(es[0].key, first)] + rest)
  }

  // ------------------------------------------------- what a value stands for

  /**
    The JSON value `v` stands for, up to member order, `undefined` members and the sign of
    zero; `None` when `v` is not a JSON value.
   */
  function Denote(v: JsValue): Option<Data> {
    match v
    case Undefined => None
    case Unsupported => None
    case JsNull => Some(DNull)
    case JsBool(b) => Some(DBool(b))
    case JsNumber(NonFinite) => None
    case JsNumber(NegativeZero) => Some(DNumber([ZERO]))
    case JsNumber(Finite(d)) => Some(DNumber(d))
    case JsString(s) => Some(DString(s))
    case JsArray(items) =>
      var ds :- DenoteItems(items);
      Some(DArray(ds))
    case JsObject(es) =>
      var members :- DenoteEntries(es);
      Some(DObject(ToMap(members)))
  }

  function DenoteItems(items: seq<JsValue>): Option<seq<Data>> {
    if items == [] then Some([])
    else
      var first :- Denote(items[0]);
      var rest :- DenoteItems(items[1..]);
      Some([first] + rest)
  }

  function DenoteEntries(es: seq<Pair<JsValue>>): Option<seq<Pair<Data>>> {
    if es == [] then Some([])
    else if es[0].val.Undefined? then DenoteEntries(es[1..])
    else
      var first :- Denote(es[0].val);
      var rest :- DenoteEntries(es[1..]);
      Some([Pair(es[0].key, first)] + rest)
  }

  // ------------------------------------------------------ the printed tree

  /** The tree of the text `Print` makes. */
  function Tree(v: JsValue): Cst
    requires Print(v).Some?
  {
    match v
    case JsNull => Word(NULL)
    case JsBool(b) => Word(if b then TRUE else FALSE)
    case JsNumber(NegativeZero) => Number([ZERO])
    case JsNumber(Finite(d)) => Number(d)
    case JsString(s) => String(Escape(s))
    case JsArray(items) => if items == [] then EmptyArray([]) else Array(TreeItems(items))
    case JsObject(es) =>
      var ms := SortByKey(TreeEntries(es));
      if ms == [] then EmptyObject([]) else Object(ToMembers(ms))
  }

  function TreeItems(items: seq<JsValue>): Items
    requires items != [] && PrintItems(items).Some?
  {
    var item := Item([], Tree(items[0]), []);
    if |items| == 1 then LastItem(item) else MoreItems(item, TreeItems(items[1..]))
  }

  function TreeEntries(es: seq<Pair<JsValue>>): seq<Pair<Cst>>
    requires PrintEntries(es).Some?
  {
    if es == [] then []
    else if es[0].val.Undefined? then TreeEntries(es[1..])
    else [Pair(es[0].key, Tree(es[0].val))] + TreeEntries(es[1..])
  }

  function ToMember(p: Pair<Cst>): Member {
    Member(Name([], Escape(p.key), []), Item([], p.val, []))
  }

  function ToMembers(ps: seq<Pair<Cst>>): Members
    requires ps != []
  {
    if |ps| == 1 then LastMember(ToMember(ps[0])) else MoreMembers(ToMember(ps[0]), ToMembers(ps[1..]))
  }

  const ALONE: Cst -> Text := c => Write(c, [])
  const MEANING: Cst -> Data := c => Read(c, FirstWins)

  // -- text after a tree

  lemma {:induction false} WriteAppend(c: Cst, a: Text, b: Text)
    ensures Write(c, a + b) == Write(c, a) + b
    decreases c, 2
  {
    match c
    case EmptyArray(g) => assert [RBRACKET] + (a + b) == [RBRACKET] + a + b;
    case EmptyObject(g) => assert [RBRACE] + (a + b) == [RBRACE] + a + b;
    case Array(items) =>
      WriteItemsAppend(items, [RBRACKET] + a, b);
      assert [RBRACKET] + (a + b) == [RBRACKET] + a + b;
    case Object(ms) =>
      WriteMembersAppend(ms, [RBRACE] + a, b);
      assert [RBRACE] + (a + b) == [RBRACE] + a + b;
    case _ =>
  }

  lemma {:induction false} WriteItemAppend(i: Item, a: Text, b: Text)
    ensures WriteItem(i, a + b) == WriteItem(i, a) + b
    decreases i, 1
  {
    WriteAppend(i.value, i.after + a, b);
    assert i.after + (a + b) == i.after + a + b;
  }

  lemma {:induction false} WriteItemsAppend(items: Items, a: Text, b: Text)
    ensures WriteItems(items, a + b) == WriteItems(items, a) + b
    decreases items, 0
  {
    if items.LastItem? {
      WriteItemAppend(items.item, a, b);
    } else {
      WriteItemsAppend(items.rest, a, b);
      var more := WriteItems(items.rest, a);
      WriteItemAppend(items.item, [COMMA] + more, b);
      assert [COMMA] + (more + b) == [COMMA] + more + b;
    }
  }

  lemma WriteNameAppend(n: Name, a: Text, b: Text)
    ensures WriteName(n, a + b) == WriteName(n, a) + b
  {
    assert [COLON] + (a + b) == [COLON] + a + b;
    assert n.after + ([COLON] + a + b) == n.after + ([COLON] + a) + b;
    assert [QUOTE] + (n.after + ([COLON] + a) + b) == [QUOTE] + (n.after + ([COLON] + a)) + b;
  }

  lemma {:induction false} WriteMemberAppend(m: Member, a: Text, b: Text)
    ensures WriteMember(m, a + b) == WriteMember(m, a) + b
    decreases m, 1
  {
    WriteItemAppend(m.item, a, b);
    WriteNameAppend(m.name, WriteItem(m.item, a), b);
  }

  lemma {:induction false} WriteMembersAppend(ms: Members, a: Text, b: Text)
    ensures WriteMembers(ms, a + b) == WriteMembers(ms, a) + b
    decreases ms, 0
  {
    if ms.LastMember? {
      WriteMemberAppend(ms.member, a, b);
    } else {
      WriteMembersAppend(ms.rest, a, b);
      var more := WriteMembers(ms.rest, a);
      WriteMemberAppend(ms.member, [COMMA] + more, b);
      assert [COMMA] + (more + b) == [COMMA] + more + b;
    }
  }

  lemma WriteThen(c: Cst, rest: Text)
    ensures Write(c, rest) == ALONE(c) + rest
  {
    WriteAppend(c, [], rest);
    assert [] + rest == rest;
  }

  // -- the tree's text is what is printed

  lemma {:induction false} TreeText(v: JsValue)
    requires Print(v).Some?
    ensures ALONE(Tree(v)) == Print(v).value
    decreases v, 1
  {
    match v
    case JsArray(items) =>
      assert [RBRACKET] + [] == [RBRACKET];
      if items != [] {
        TreeItemsText(items, [RBRACKET]);
      }
    case JsObject(es) =>
      assert [RBRACE] + [] == [RBRACE];
      TreeEntriesText(es);
      var ps := SortByKey(TreeEntries(es));
      SortMap(TreeEntries(es), ALONE);
      if ps != [] {
        ToMembersText(ps, [RBRACE]);
      }
    case _ =>
  }

  lemma LoneItemText(c: Cst, rest: Text)
    ensures WriteItem(Item([], c, []), rest) == ALONE(c) + rest
  {
    WriteThen(c, rest);
    assert [] + rest == rest;
    assert [] + Write(c, rest) == Write(c, rest);
  }

  lemma Assoc(a: Text, b: Text, c: Text)
    ensures a + (b + c) == a + b + c
  {
  }

  lemma {:induction false} TreeItemsText(items: seq<JsValue>, rest: Text)
    requires items != [] && PrintItems(items).Some?
    ensures WriteItems(TreeItems(items), rest) == Join(PrintItems(items).value) + rest
    decreases items, 0
  {
    var c := Tree(items[0]);
    TreeText(items[0]);
    var texts := PrintItems(items).value;
    if |items| == 1 {
      assert texts == [ALONE(c)];
      LoneItemText(c, rest);
    } else {
      TreeItemsText(items[1..], rest);
      var more := Join(texts[1..]);
      assert texts[1..] == PrintItems(items[1..]).value;
      LoneItemText(c, [COMMA] + (more + rest));
      Assoc([COMMA], more, rest);
      Assoc(ALONE(c), [COMMA] + more, rest);
    }
  }

  lemma {:induction false} TreeEntriesText(es: seq<Pair<JsValue>>)
    requires PrintEntries(es).Some?
    ensures MapPairs(TreeEntries(es), ALONE) == PrintEntries(es).value
    decreases es, 0
  {
    if es != [] {
      TreeEntriesText(es[1..]);
      if !es[0].val.Undefined? {
        TreeText(es[0].val);
        assert TreeEntries(es)[1..] == TreeEntries(es[1..]);
      }
    }
  }

  lemma ToMemberText(p: Pair<Cst>, rest: Text)
    ensures WriteMember(ToMember(p), rest) == Quote(p.key) + ([COLON] + ALONE(p.val)) + rest
  {
    LoneItemText(p.val, rest);
    var value := [COLON] + ALONE(p.val);
    QuotedName(p.key, ALONE(p.val) + rest);
    Assoc([COLON], ALONE(p.val), rest);
    Assoc(Quote(p.key), value, rest);
  }

  lemma QuotedName(key: Text, rest: Text)
    ensures WriteName(Name([], Escape(key), []), rest) == Quote(key) + ([COLON] + rest)
  {
    var tail := [COLON] + rest;
    assert [] + tail == tail;
    assert [QUOTE] + (Escape(key) + ([QUOTE] + tail)) == Quote(key) + tail;
  }

  lemma {:induction false} ToMembersText(ps: seq<Pair<Cst>>, rest: Text)
    requires ps != []
    ensures WriteMembers(ToMembers(ps), rest) == Join(MemberTexts(MapPairs(ps, ALONE))) + rest
  {
    var texts := MemberTexts(MapPairs(ps, ALONE));
    assert MapPairs(ps, ALONE)[1..] == MapPairs(ps[1..], ALONE);
    if |ps| == 1 {
      ToMemberText(ps[0], rest);
      assert texts == [texts[0]];
    } else {
      ToMembersText(ps[1..], rest);
      ToMemberText(ps[0], [COMMA] + WriteMembers(ToMembers(ps[1..]), rest));
      assert texts[1..] == MemberTexts(MapPairs(ps[1..], ALONE));
    }
  }

  // -- the tree means what the value stands for

  lemma {:induction false} TreeMeaning(v: JsValue)
    requires IsJs(v) && Print(v).Some?
    ensures Denote(v) == Some(MEANING(Tree(v)))
    decreases v, 1
  {
    match v
    case JsString(s) => DecodeEscape(s);
    case JsArray(items) =>
      TreeItemsMeaning(items);
    case JsObject(es) =>
      TreeObjectMeaning(es);
    case _ =>
  }

  lemma {:induction false} TreeObjectMeaning(es: seq<Pair<JsValue>>)
    requires IsJs(JsObject(es)) && Print(JsObject(es)).Some?
    ensures Denote(JsObject(es)) == Some(MEANING(Tree(JsObject(es))))
    decreases es, 3
  {
    TreeEntriesMeaning(es);
    TreeEntriesKeys(es);
    var csts := TreeEntries(es);
    SortedMeaning(csts);
    TreeOfSorted(SortByKey(csts), ToMap(MapPairs(csts, MEANING)));
  }

  lemma TreeOfSorted(ps: seq<Pair<Cst>>, m: map<Text, Data>)
    requires if ps == [] then m == map[] else ReadMembers(ToMembers(ps), FirstWins) == m
    ensures MEANING(if ps == [] then EmptyObject([]) else Object(ToMembers(ps))) == DObject(m)
  {
  }

  lemma SortKeepsMap<T(!new)>(ps: seq<Pair<T>>)
    requires DistinctKeys(ps)
    ensures ToMap(SortByKey(ps)) == ToMap(ps)
  {
    SortFacts(ps);
    SortedIsDistinct(SortByKey(ps));
    SameMembersSameMap(SortByKey(ps), ps);
  }

  /** Sorting the members does not change the object they make. */
  lemma SortedMeaning(csts: seq<Pair<Cst>>)
    requires DistinctKeys(csts)
    ensures var ps := SortByKey(csts);
            ps == [] ==> ToMap(MapPairs(csts, MEANING)) == map[]
    ensures var ps := SortByKey(csts);
            ps != [] ==> ReadMembers(ToMembers(ps), FirstWins) == ToMap(MapPairs(csts, MEANING))
  {
    var ds := MapPairs(csts, MEANING);
    assert DistinctKeys(ds);
    SortMap(csts, MEANING);
    SortKeepsMap(ds);
    if SortByKey(csts) != [] {
      ToMembersMeaning(SortByKey(csts));
    }
  }

  lemma {:induction false} TreeItemsMeaning(items: seq<JsValue>)
    requires PrintItems(items).Some? && forall i | 0 <= i < |items| :: IsJs(items[i])
    ensures DenoteItems(items) == Some(if items == [] then [] else ReadItems(TreeItems(items), FirstWins))
    decreases items, 0
  {
    if items != [] {
      TreeMeaning(items[0]);
      TreeItemsMeaning(items[1..]);
    }
  }

  lemma {:induction false} TreeEntriesMeaning(es: seq<Pair<JsValue>>)
    requires PrintEntries(es).Some? && forall i | 0 <= i < |es| :: IsJs(es[i].val)
    ensures DenoteEntries(es) == Some(MapPairs(TreeEntries(es), MEANING))
    decreases es, 0
  {
    if es != [] {
      TreeEntriesMeaning(es[1..]);
      if !es[0].val.Undefined? {
        TreeMeaning(es[0].val);
        assert TreeEntries(es)[1..] == TreeEntries(es[1..]);
      }
    }
  }

  lemma {:induction false} TreeEntriesKeys(es: seq<Pair<JsValue>>)
    requires PrintEntries(es).Some? && DistinctKeys(es)
    ensures DistinctKeys(TreeEntries(es))
    ensures forall p | p in TreeEntries(es) :: exists e :: e in es && e.key == p.key
  {
    if es != [] {
      TreeEntriesKeys(es[1..]);
      var tail := TreeEntries(es[1..]);
      forall p | p in tail ensures p.key != es[0].key && exists e :: e in es && e.key == p.key {
        var e :| e in es[1..] && e.key == p.key;
        var j :| 0 <= j < |es[1..]| && es[1..][j] == e;
        assert es[0].key != es[j + 1].key;
        assert e in es;
      }
      assert es[0] in es;
    }
  }

  lemma {:induction false} ToMembersMeaning(ps: seq<Pair<Cst>>)
    requires ps != []
    ensures ReadMembers(ToMembers(ps), FirstWins) == ToMap(MapPairs(ps, MEANING))
  {
    MeaningCons(ps);
    MemberMeaning(ps[0]);
    if |ps| > 1 {
      ToMembersMeaning(ps[1..]);
    } else {
      assert ps[1..] == [];
      assert ToMap(MapPairs(ps[1..], MEANING)) == map[];
    }
  }

  lemma MemberMeaning(p: Pair<Cst>)
    ensures ToMember(p).name.Decoded() == p.key && ToMember(p).item.value == p.val
  {
    DecodeEscape(p.key);
  }

  lemma MeaningCons(ps: seq<Pair<Cst>>)
    requires ps != []
    ensures ToMap(MapPairs(ps, MEANING)) == ToMap(MapPairs(ps[1..], MEANING))[ps[0].key := Read(ps[0].val, FirstWins)]
  {
    var read := MapPairs(ps, MEANING);
    assert read[0] == Pair(ps[0].key, Read(ps[0].val, FirstWins));
    assert read[1..] == MapPairs(ps[1..], MEANING);
  }

  // -- the tree is well formed and repeats no name

  lemma {:induction false} TreeWf(v: JsValue)
    requires IsJs(v) && Print(v).Some?
    ensures Wf(Tree(v)) && NoRepeat(Tree(v))
    decreases v, 1
  {
    match v
    case JsNumber(NegativeZero) => ZeroIsNumber();
    case JsString(s) => DecodeEscape(s);
    case JsArray(items) =>
      if items != [] {
        TreeItemsWf(items);
      }
    case JsObject(es) =>
      var csts := TreeEntries(es);
      TreeEntriesWf(es);
      TreeEntriesKeys(es);
      SortFacts(csts);
      SortedIsDistinct(SortByKey(csts));
      if csts != [] {
        ToMembersWf(SortByKey(csts));
      }
    case _ =>
  }

  lemma ZeroIsNumber()
    ensures NumberText([ZERO])
  {
    assert [ZERO][1..] == [];
  }

  lemma {:induction false} TreeItemsWf(items: seq<JsValue>)
    requires items != [] && PrintItems(items).Some? && forall i | 0 <= i < |items| :: IsJs(items[i])
    ensures WfItems(TreeItems(items)) && NoRepeatItems(TreeItems(items))
    decreases items, 0
  {
    TreeWf(items[0]);
    if |items| > 1 {
      TreeItemsWf(items[1..]);
    }
  }

  lemma {:induction false} TreeEntriesWf(es: seq<Pair<JsValue>>)
    requires PrintEntries(es).Some? && forall i | 0 <= i < |es| :: IsJs(es[i].val)
    ensures forall p | p in TreeEntries(es) :: Wf(p.val) && NoRepeat(p.val)
    decreases es, 0
  {
    if es != [] {
      TreeEntriesWf(es[1..]);
      if !es[0].val.Undefined? {
        TreeWf(es[0].val);
      }
    }
  }

  lemma {:induction false} ToMembersNames(ps: seq<Pair<Cst>>)
    requires ps != []
    ensures var names := Names(ToMembers(ps));
            |names| == |ps| && forall i | 0 <= i < |ps| :: names[i] == ps[i].key
  {
    MemberMeaning(ps[0]);
    if |ps| > 1 {
      ToMembersNames(ps[1..]);
    }
  }

  lemma {:induction false} ToMembersValues(ps: seq<Pair<Cst>>)
    requires ps != [] && forall p | p in ps :: Wf(p.val) && NoRepeat(p.val)
    ensures WfMembers(ToMembers(ps)) && NoRepeatValues(ToMembers(ps))
  {
    DecodeEscape(ps[0].key);
    assert ps[0] in ps;
    if |ps| > 1 {
      assert forall p | p in ps[1..] :: p in ps;
      ToMembersValues(ps[1..]);
    }
  }

  lemma ToMembersWf(ps: seq<Pair<Cst>>)
    requires ps != [] && DistinctKeys(ps) && forall p | p in ps :: Wf(p.val) && NoRepeat(p.val)
    ensures var ms := ToMembers(ps); WfMembers(ms) && Distinct(Names(ms)) && NoRepeatValues(ms)
  {
    ToMembersNames(ps);
    ToMembersValues(ps);
  }

  // ------------------------------------------------------------ main results

  lemma {:induction false} PrintableIsJson(v: JsValue)
    ensures Print(v).Some? <==> Denote(v).Some?
    decreases v, 1
  {
    match v
    case JsArray(items) => PrintableItems(items);
    case JsObject(es) => PrintableEntries(es);
    case _ =>
  }

  lemma {:induction false} PrintableItems(items: seq<JsValue>)
    ensures PrintItems(items).Some? <==> DenoteItems(items).Some?
    decreases items, 0
  {
    if items != [] {
      PrintableIsJson(items[0]);
      PrintableItems(items[1..]);
    }
  }

  lemma {:induction false} PrintableEntries(es: seq<Pair<JsValue>>)
    ensures PrintEntries(es).Some? <==> DenoteEntries(es).Some?
    decreases es, 0
  {
    if es != [] {
      PrintableIsJson(es[0].val);
      PrintableEntries(es[1..]);
    }
  }

  /**
    Parsing the canonical text gives the value back: the text is JSON, the duplicate-key check
    accepts it, and every parser reads from it what the value stands for.
   */
  lemma CanonicalTextParsesBack(v: JsValue)
    requires IsJs(v) && Print(v).Some?
    ensures var text := Print(v).value;
            var doc := Item([], Tree(v), []);
            && IsRfcJson(text, doc) && Check(text).None?
            && Some(Read(doc.value, FirstWins)) == Some(Read(doc.value, LastWins)) == Denote(v)
  {
    var doc := Item([], Tree(v), []);
    TreeText(v);
    TreeWf(v);
    TreeMeaning(v);
    TreeStrict(v);
    assert [] + Write(Tree(v), []) == Write(Tree(v), []);
    assert WriteItem(doc, []) == Print(v).value;
    RepeatReported(Print(v).value, doc);
    ReadingsAgree(Tree(v));
  }

  lemma {:induction false} TreeStrict(v: JsValue)
    requires Print(v).Some?
    ensures StrictGaps(Tree(v))
    decreases v, 1
  {
    match v
    case JsArray(items) =>
      if items != [] {
        TreeItemsStrict(items);
      }
    case JsObject(es) =>
      TreeEntriesStrict(es);
      var ps := SortByKey(TreeEntries(es));
      SortKeepsMembers(TreeEntries(es));
      if ps != [] {
        ToMembersStrict(ps);
      }
    case _ =>
  }

  lemma {:induction false} TreeItemsStrict(items: seq<JsValue>)
    requires items != [] && PrintItems(items).Some?
    ensures StrictItemsGaps(TreeItems(items))
    decreases items, 0
  {
    TreeStrict(items[0]);
    if |items| > 1 {
      TreeItemsStrict(items[1..]);
    }
  }

  lemma {:induction false} TreeEntriesStrict(es: seq<Pair<JsValue>>)
    requires PrintEntries(es).Some?
    ensures forall p | p in TreeEntries(es) :: StrictGaps(p.val)
    decreases es, 0
  {
    if es != [] {
      TreeEntriesStrict(es[1..]);
      if !es[0].val.Undefined? {
        TreeStrict(es[0].val);
      }
    }
  }

  lemma {:induction false} InsertKeepsMembers<T(!new)>(p: Pair<T>, ps: seq<Pair<T>>)
    ensures forall q | q in Insert(p, ps) :: q == p || q in ps
  {
    if ps != [] && Less(ps[0].key, p.key) {
      InsertKeepsMembers(p, ps[1..]);
    }
  }

  lemma {:induction false} SortKeepsMembers<T(!new)>(ps: seq<Pair<T>>)
    ensures forall q | q in SortByKey(ps) :: q in ps
  {
    if ps != [] {
      SortKeepsMembers(ps[1..]);
      InsertKeepsMembers(ps[0], SortByKey(ps[1..]));
    }
  }

  lemma {:induction false} ToMembersStrict(ps: seq<Pair<Cst>>)
    requires ps != [] && forall p | p in ps :: StrictGaps(p.val)
    ensures StrictMembersGaps(ToMembers(ps))
  {
    assert ps[0] in ps;
    if |ps| > 1 {
      ToMembersStrict(ps[1..]);
    }
  }

  lemma {:induction false} SameMeaningSameTree(v: JsValue, w: JsValue)
    requires IsJs(v) && IsJs(w) && Print(v).Some? && Print(w).Some? && Denote(v) == Denote(w)
    ensures Tree(v) == Tree(w)
    decreases v, 1
  {
    PrintableIsJson(v);
    match v
    case JsArray(items) =>
      SameItemsSameTrees(items, w.items);
      assert items == [] <==> w.items == [];
    case JsObject(es) =>
      TreeEntriesMeaning(es);
      TreeEntriesMeaning(w.entries);
      SameMembersSameTrees(es, w.entries);
      TreeEntriesKeys(es);
      TreeEntriesKeys(w.entries);
      SortOfSameMap(TreeEntries(es), TreeEntries(w.entries));
    case _ =>
  }

  lemma {:induction false} SameItemsSameTrees(vs: seq<JsValue>, ws: seq<JsValue>)
    requires PrintItems(vs).Some? && PrintItems(ws).Some? && DenoteItems(vs) == DenoteItems(ws)
    requires DenoteItems(vs).Some?
    requires (forall i | 0 <= i < |vs| :: IsJs(vs[i])) && (forall i | 0 <= i < |ws| :: IsJs(ws[i]))
    ensures (vs == [] <==> ws == []) && (vs != [] ==> TreeItems(vs) == TreeItems(ws))
    decreases vs, 0
  {
    if vs != [] && ws != [] {
      var dv, dw := DenoteItems(vs).value, DenoteItems(ws).value;
      assert Denote(vs[0]) == Some(dv[0]) && Denote(ws[0]) == Some(dw[0]);
      assert DenoteItems(vs[1..]) == Some(dv[1..]) && DenoteItems(ws[1..]) == Some(dw[1..]);
      SameMeaningSameTree(vs[0], ws[0]);
      SameItemsSameTrees(vs[1..], ws[1..]);
      assert |vs| == 1 <==> |ws| == 1;
    }
  }

  /** Each tree comes from an entry of its key. */
  lemma {:induction false} TreeEntryOrigin(es: seq<Pair<JsValue>>, p: Pair<Cst>)
    requires PrintEntries(es).Some? && p in TreeEntries(es)
    ensures exists i :: 0 <= i < |es| && es[i].key == p.key && Print(es[i].val).Some? && Tree(es[i].val) == p.val
  {
    if !es[0].val.Undefined? && p == Pair(es[0].key, Tree(es[0].val)) {
    } else {
      TreeEntryOrigin(es[1..], p);
      var i :| 0 <= i < |es[1..]| && es[1..][i].key == p.key && Print(es[1..][i].val).Some? && Tree(es[1..][i].val) == p.val;
      assert es[i + 1] == es[1..][i];
    }
  }

  ghost predicate JsEntries(es: seq<Pair<JsValue>>) {
    DistinctKeys(es) && PrintEntries(es).Some? && forall i | 0 <= i < |es| :: IsJs(es[i].val)
  }

  /** The tree of a member determines, and is determined by, its key and meaning. */
  lemma {:induction false} TreeEntryMatched(es: seq<Pair<JsValue>>, fs: seq<Pair<JsValue>>, p: Pair<Cst>)
    requires JsEntries(es) && JsEntries(fs) && p in TreeEntries(es)
    requires ToMap(MapPairs(TreeEntries(es), MEANING)) == ToMap(MapPairs(TreeEntries(fs), MEANING))
    ensures p in TreeEntries(fs)
    decreases es, 1
  {
    TreeEntryOrigin(es, p);
    var i :| 0 <= i < |es| && es[i].key == p.key && Print(es[i].val).Some? && Tree(es[i].val) == p.val;
    MeaningOf(es, p);
    var q := MemberOf(fs, p.key);
    MeaningOf(fs, q);
    TreeEntryOrigin(fs, q);
    var j :| 0 <= j < |fs| && fs[j].key == q.key && Print(fs[j].val).Some? && Tree(fs[j].val) == q.val;
    TreeMeaning(es[i].val);
    TreeMeaning(fs[j].val);
    SameMeaningSameTree(es[i].val, fs[j].val);
  }

  lemma MeaningOf(es: seq<Pair<JsValue>>, p: Pair<Cst>)
    requires JsEntries(es) && p in TreeEntries(es)
    ensures var m := ToMap(MapPairs(TreeEntries(es), MEANING));
            p.key in m && m[p.key] == MEANING(p.val)
  {
    var ds := MapPairs(TreeEntries(es), MEANING);
    TreeEntriesKeys(es);
    var i :| 0 <= i < |ds| && TreeEntries(es)[i] == p;
    assert ds[i] == Pair(p.key, MEANING(p.val));
    ToMapAt(ds, ds[i]);
  }

  lemma MemberOf(es: seq<Pair<JsValue>>, k: Text) returns (p: Pair<Cst>)
    requires JsEntries(es) && k in ToMap(MapPairs(TreeEntries(es), MEANING))
    ensures p in TreeEntries(es) && p.key == k
  {
    var ds := MapPairs(TreeEntries(es), MEANING);
    var i :| 0 <= i < |ds| && ds[i] == Pair(k, ToMap(ds)[k]);
    p := TreeEntries(es)[i];
  }

  lemma {:induction false} SameMembersSameTrees(es: seq<Pair<JsValue>>, fs: seq<Pair<JsValue>>)
    requires JsEntries(es) && JsEntries(fs)
    requires ToMap(MapPairs(TreeEntries(es), MEANING)) == ToMap(MapPairs(TreeEntries(fs), MEANING))
    ensures ToMap(TreeEntries(es)) == ToMap(TreeEntries(fs))
    decreases es, 2
  {
    TreeEntriesKeys(es);
    TreeEntriesKeys(fs);
    forall p | p in TreeEntries(es) ensures p in TreeEntries(fs) {
      TreeEntryMatched(es, fs, p);
    }
    forall q | q in TreeEntries(fs) ensures q in TreeEntries(es) {
      MeaningOf(fs, q);
      var p := MemberOf(es, q.key);
      TreeEntryMatched(es, fs, p);
      ToMapAt(TreeEntries(fs), p);
      ToMapAt(TreeEntries(fs), q);
    }
    SameMembersSameMap(TreeEntries(es), TreeEntries(fs));
  }

  /**
    Two values print to the same canonical text exactly when they are the same JSON value up
    to member order, `undefined` members and the sign of zero.
   */
  lemma CanonicalTextDecidesEquality(v: JsValue, w: JsValue)
    requires IsJs(v) && IsJs(w) && Print(v).Some? && Print(w).Some?
    ensures Print(v) == Print(w) <==> Denote(v) == Denote(w)
  {
    if Print(v) == Print(w) {
      CanonicalTextParsesBack(v);
      CanonicalTextParsesBack(w);
      TreeWf(v);
      TreeWf(w);
      ReadingIsUnique(Print(v).value, Item([], Tree(v), []));
      ReadingIsUnique(Print(v).value, Item([], Tree(w), []));
    }
    if Denote(v) == Denote(w) {
      SameMeaningSameTree(v, w);
      TreeText(v);
      TreeText(w);
    }
  }

  // ------------------------------------------------------- the serializer

  lemma {:induction false} PrintItemsAppend(a: seq<JsValue>, b: seq<JsValue>)
    ensures PrintItems(a + b) ==
            if PrintItems(a).Some? && PrintItems(b).Some? then Some(PrintItems(a).value + PrintItems(b).value) else None
  {
    if a == [] {
      assert a + b == b;
      assert PrintItems(b).Some? ==> [] + PrintItems(b).value == PrintItems(b).value;
    } else {
      PrintItemsAppend(a[1..], b);
      assert (a + b)[1..] == a[1..] + b;
      if PrintItems(a).Some? && PrintItems(b).Some? {
        var first, rest, last := [Print(a[0]).value], PrintItems(a[1..]).value, PrintItems(b).value;
        assert first + (rest + last) == first + rest + last;
      }
    }
  }

  lemma PrintItemsUpTo(items: seq<JsValue>, i: nat)
    requires i < |items|
    ensures PrintItems(items[..i + 1]) ==
            if PrintItems(items[..i]).Some? && Print(items[i]).Some?
            then Some(PrintItems(items[..i]).value + [Print(items[i]).value]) else None
    ensures PrintItems(items[..i + 1]).None? ==> PrintItems(items).None?
  {
    assert items[..i + 1] == items[..i] + [items[i]];
    assert items == items[..i + 1] + items[i + 1..];
    assert [items[i]][1..] == [];
    assert Print(items[i]).Some? ==> [Print(items[i]).value] + [] == [Print(items[i]).value];
    PrintItemsAppend(items[..i], [items[i]]);
    PrintItemsAppend(items[..i + 1], items[i + 1..]);
  }

  lemma {:induction false} PrintEntriesAppend(a: seq<Pair<JsValue>>, b: seq<Pair<JsValue>>)
    ensures PrintEntries(a + b) ==
            if PrintEntries(a).Some? && PrintEntries(b).Some?
            then Some(PrintEntries(a).value + PrintEntries(b).value) else None
  {
    if a == [] {
      assert a + b == b;
      assert PrintEntries(b).Some? ==> [] + PrintEntries(b).value == PrintEntries(b).value;
    } else {
      PrintEntriesAppend(a[1..], b);
      assert (a + b)[1..] == a[1..] + b;
      if !a[0].val.Undefined? && PrintEntries(a).Some? && PrintEntries(b).Some? {
        var first, rest, last := [Pair(a[0].key, Print(a[0].val).value)], PrintEntries(a[1..]).value, PrintEntries(b).value;
        assert first + (rest + last) == first + rest + last;
      }
    }
  }

  lemma PrintEntryAlone(e: Pair<JsValue>)
    requires !e.val.Undefined?
    ensures PrintEntries([e]) == if Print(e.val).Some? then Some([Pair(e.key, Print(e.val).value)]) else None
  {
    assert [e][1..] == [];
    if Print(e.val).Some? {
      var p := Pair(e.key, Print(e.val).value);
      assert [p] + [] == [p];
    }
  }

  lemma PrintEntriesUpTo(es: seq<Pair<JsValue>>, i: nat)
    requires i < |es| && !es[i].val.Undefined?
    ensures PrintEntries(es[..i + 1]) ==
            if PrintEntries(es[..i]).Some? && Print(es[i].val).Some?
            then Some(PrintEntries(es[..i]).value + [Pair(es[i].key, Print(es[i].val).value)]) else None
    ensures PrintEntries(es[..i + 1]).None? ==> PrintEntries(es).None?
  {
    var e := es[i];
    assert es[..i + 1] == es[..i] + [e];
    assert es == es[..i + 1] + es[i + 1..];
    PrintEntryAlone(e);
    PrintEntriesAppend(es[..i], [e]);
    PrintEntriesAppend(es[..i + 1], es[i + 1..]);
  }

  /** `.filter(([, item]) => item !== undefined)`. */
  function Defined(es: seq<Pair<JsValue>>): seq<Pair<JsValue>> {
    if es == [] then []
    else if es[|es| - 1].val.Undefined? then Defined(es[..|es| - 1])
    else Defined(es[..|es| - 1]) + [es[|es| - 1]]
  }

  lemma {:induction false} DefinedFacts(es: seq<Pair<JsValue>>)
    ensures PrintEntries(Defined(es)) == PrintEntries(es)
    ensures forall e :: e in Defined(es) <==> e in es && !e.val.Undefined?
  {
    if es != [] {
      var last := es[|es| - 1];
      DefinedFacts(es[..|es| - 1]);
      assert es == es[..|es| - 1] + [last];
      PrintEntriesAppend(es[..|es| - 1], [last]);
      PrintEntriesAppend(Defined(es[..|es| - 1]), [last]);
      if last.val.Undefined? {
        assert PrintEntries([last]) == Some([]);
        assert PrintEntries(es[..|es| - 1]).Some? ==> PrintEntries(es[..|es| - 1]).value + [] == PrintEntries(es[..|es| - 1]).value;
      }
    }
  }

  lemma {:induction false} PrintInsert(e: Pair<JsValue>, es: seq<Pair<JsValue>>)
    requires !e.val.Undefined? && forall d | d in es :: !d.val.Undefined?
    ensures PrintEntries(Insert(e, es)) ==
            if Print(e.val).Some? && PrintEntries(es).Some?
            then Some(Insert(Pair(e.key, Print(e.val).value), PrintEntries(es).value)) else None
  {
    if es == [] {
      assert [e][1..] == [];
    } else if !Less(es[0].key, e.key) {
      assert ([e] + es)[1..] == es;
      assert es[0] in es;
    } else {
      PrintInsert(e, es[1..]);
      assert ([es[0]] + Insert(e, es[1..]))[1..] == Insert(e, es[1..]);
      assert es[0] in es;
      if PrintEntries(es).Some? {
        assert PrintEntries(es).value[1..] == PrintEntries(es[1..]).value;
      }
    }
  }

  /** Printing the sorted members is sorting the printed members. */
  lemma {:induction false} PrintSorted(es: seq<Pair<JsValue>>)
    requires forall e | e in es :: !e.val.Undefined?
    ensures PrintEntries(SortByKey(es)) ==
            if PrintEntries(es).Some? then Some(SortByKey(PrintEntries(es).value)) else None
  {
    if es != [] {
      PrintSorted(es[1..]);
      SortKeepsMembers(es[1..]);
      assert es[0] in es;
      PrintInsert(es[0], SortByKey(es[1..]));
      if PrintEntries(es).Some? {
        assert PrintEntries(es).value[1..] == PrintEntries(es[1..]).value;
      }
    }
  }

  lemma {:induction false} MemberTextsAppend(ps: seq<Pair<Text>>, p: Pair<Text>)
    ensures MemberTexts(ps + [p]) == MemberTexts(ps) + [Quote(p.key) + ([COLON] + p.val)]
  {
    if ps == [] {
      assert ps + [p] == [p];
    } else {
      MemberTextsAppend(ps[1..], p);
      assert (ps + [p])[1..] == ps[1..] + [p];
    }
  }

  /** `canonicalJsonStringify` with the loops it runs; `None` is an exception. */
  method SerializeCanonicalJson(v: JsValue) returns (text: Option<Text>)
    ensures text == Print(v)
    ensures text.Some? <==> Denote(v).Some?
    decreases v
  {
    PrintableIsJson(v);
    match v {
      case JsNull => text := Some(NULL);
      case JsBool(b) => text := Some(if b then TRUE else FALSE);
      case JsNumber(NegativeZero) => text := Some([ZERO]);
      case JsNumber(Finite(d)) => text := Some(d);
      case JsString(s) => text := Some(Quote(s));
      case JsArray(values) =>
        var items: seq<Text> := [];
        for index := 0 to |values|
          invariant PrintItems(values[..index]) == Some(items)
        {
          var item := SerializeCanonicalJson(values[index]);
          PrintItemsUpTo(values, index);
          if item.None? {
            return None;
          }
          items := items + [item.value];
        }
        assert values[..|values|] == values;
        text := Some([LBRACKET] + (Join(items) + [RBRACKET]));
      case JsObject(entries) =>
        var defined: seq<Pair<JsValue>> := [];
        for index := 0 to |entries|
          invariant defined == Defined(entries[..index])
        {
          assert entries[..index + 1][..index] == entries[..index];
          if !entries[index].val.Undefined? {
            defined := defined + [entries[index]];
          }
        }
        assert entries[..|entries|] == entries;
        var sorted := SortByKey(defined);
        DefinedFacts(entries);
        SortKeepsMembers(defined);
        PrintSorted(defined);
        var members: seq<Text> := [];
        ghost var printed: seq<Pair<Text>> := [];
        for index := 0 to |sorted|
          invariant PrintEntries(sorted[..index]) == Some(printed)
          invariant members == MemberTexts(printed)
        {
          var entry := sorted[index];
          assert entry in sorted && entry in entries;
          var k :| 0 <= k < |entries| && entries[k] == entry;
          assert entries[k].val < v;
          var item := SerializeCanonicalJson(entry.val);
          PrintEntriesUpTo(sorted, index);
          if item.None? {
            return None;
          }
          MemberTextsAppend(printed, Pair(entry.key, item.value));
          members := members + [Quote(entry.key) + ([COLON] + item.value)];
          printed := printed + [Pair(entry.key, item.value)];
        }
        assert sorted[..|sorted|] == sorted;
        text := Some([LBRACE] + (Join(members) + [RBRACE]));
      case _ => text := None;
    }
  }
}
