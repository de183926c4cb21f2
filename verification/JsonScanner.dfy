/**
  The duplicate-key scanner that runs over a request body before the body is parsed.

  `Cst` is the grammar (RFC 8259, section 2) written down independently of the scanner:
  a tree that keeps every unit of the text, with `Render` giving the text back.
  `ScanItem` and its companions are the scanner as functions on the remaining text;
  the class `Scanner` is the scanner as it runs, moving one shared index.
 */
module JsonScanner {
  import opened Basics
  import opened JsonLexemes

  // ------------------------------------------------------------ the grammar

  datatype Cst =
    | Word(word: Text)
    | Number(digits: Text)
    | String(body: Text)
    | EmptyArray(gap: Text)
    | Array(items: Items)
    | EmptyObject(gap: Text)
    | Object(members: Members)

  /** A value with the white space around it. */
  datatype Item = Item(before: Text, value: Cst, after: Text)

  datatype Items = LastItem(item: Item) | MoreItems(item: Item, rest: Items)

  /** A member name (the body of its string literal) with the white space around it. */
  datatype Name = Name(before: Text, body: Text, after: Text) {
    function Decoded(): Text { Decode(body).GetOr([]) }
  }

  datatype Member = Member(name: Name, item: Item)

  datatype Members = LastMember(member: Member) | MoreMembers(member: Member, rest: Members)

  /** The text of `c` followed by `rest`; every other `Write` function reads the same way. */
  function Write(c: Cst, rest: Text): Text {
    match c
    case Word(w) => w + rest
    case Number(d) => d + rest
    case String(b) => [QUOTE] + (b + ([QUOTE] + rest))
    case EmptyArray(g) => [LBRACKET] + (g + ([RBRACKET] + rest))
    case Array(items) => [LBRACKET] + WriteItems(items, [RBRACKET] + rest)
    case EmptyObject(g) => [LBRACE] + (g + ([RBRACE] + rest))
    case Object(ms) => [LBRACE] + WriteMembers(ms, [RBRACE] + rest)
  }

  function WriteItem(i: Item, rest: Text): Text {
    i.before + Write(i.value, i.after + rest)
  }

  function WriteItems(items: Items, rest: Text): Text {
    match items
    case LastItem(i) => WriteItem(i, rest)
    case MoreItems(i, more) => WriteItem(i, [COMMA] + WriteItems(more, rest))
  }

  function WriteName(n: Name, rest: Text): Text {
    n.before + ([QUOTE] + (n.body + ([QUOTE] + (n.after + ([COLON] + rest)))))
  }

  function WriteMember(m: Member, rest: Text): Text {
    WriteName(m.name, WriteItem(m.item, rest))
  }

  function WriteMembers(ms: Members, rest: Text): Text {
    match ms
    case LastMember(m) => WriteMember(m, rest)
    case MoreMembers(m, more) => WriteMember(m, [COMMA] + WriteMembers(more, rest))
  }

  /** The units `/\s/u` accepts; the scanner skips these between tokens. */
  predicate Space(u: Unit) {
    0x09 <= u <= 0x0D || u == 0x20 || u == 0xA0 || u == 0x1680 || 0x2000 <= u <= 0x200A
    || u == 0x2028 || u == 0x2029 || u == 0x202F || u == 0x205F || u == 0x3000 || u == 0xFEFF
  }

  /** White space of RFC 8259, section 2. */
  predicate JsonSpace(u: Unit) {
    u == 0x20 || u == 0x09 || u == 0x0A || u == 0x0D
  }

  predicate IsGap(g: Text) {
    forall i | 0 <= i < |g| :: Space(g[i])
  }

  ghost predicate Wf(c: Cst) {
    match c
    case Word(w) => w == TRUE || w == FALSE || w == NULL
    case Number(d) => NumberText(d)
    case String(b) => Decode(b).Some?
    case EmptyArray(g) => IsGap(g)
    case Array(items) => WfItems(items)
    case EmptyObject(g) => IsGap(g)
    case Object(ms) => WfMembers(ms)
  }

  ghost predicate WfItem(i: Item) {
    IsGap(i.before) && Wf(i.value) && IsGap(i.after)
  }

  ghost predicate WfItems(items: Items) {
    WfItem(items.item) && (items.MoreItems? ==> WfItems(items.rest))
  }

  ghost predicate WfName(n: Name) {
    IsGap(n.before) && Decode(n.body).Some? && IsGap(n.after)
  }

  ghost predicate WfMember(m: Member) {
    WfName(m.name) && WfItem(m.item)
  }

  ghost predicate WfMembers(ms: Members) {
    WfMember(ms.member) && (ms.MoreMembers? ==> WfMembers(ms.rest))
  }

  // ------------------------------------------------------ repeated names

  function Names(ms: Members): seq<Text> {
    [ms.member.name.Decoded()] + if ms.MoreMembers? then Names(ms.rest) else []
  }

  ghost predicate Distinct(names: seq<Text>) {
    forall i, j | 0 <= i < j < |names| :: names[i] != names[j]
  }

  /** No object at any depth repeats a decoded name. */
  ghost predicate NoRepeat(c: Cst) {
    match c
    case Array(items) => NoRepeatItems(items)
    case Object(ms) => Distinct(Names(ms)) && NoRepeatValues(ms)
    case _ => true
  }

  ghost predicate NoRepeatItems(items: Items) {
    NoRepeat(items.item.value) && (items.MoreItems? ==> NoRepeatItems(items.rest))
  }

  ghost predicate NoRepeatValues(ms: Members) {
    NoRepeat(ms.member.item.value) && (ms.MoreMembers? ==> NoRepeatValues(ms.rest))
  }

  /** Some object at some depth has two members named `k`. */
  ghost predicate Repeats(c: Cst, k: Text) {
    match c
    case Array(items) => RepeatsInItems(items, k)
    case Object(ms) =>
      || (exists i, j :: 0 <= i < j < |Names(ms)| && Names(ms)[i] == Names(ms)[j] == k)
      || RepeatsInValues(ms, k)
    case _ => false
  }

  ghost predicate RepeatsInItems(items: Items, k: Text) {
    Repeats(items.item.value, k) || (items.MoreItems? && RepeatsInItems(items.rest, k))
  }

  ghost predicate RepeatsInValues(ms: Members, k: Text) {
    Repeats(ms.member.item.value, k) || (ms.MoreMembers? && RepeatsInValues(ms.rest, k))
  }

  /** `NoRepeat` for the members still to be scanned when `seen` are the names scanned so far. */
  ghost predicate NoRepeatAfter(ms: Members, seen: set<Text>) {
    Distinct(Names(ms)) && (forall n | n in Names(ms) :: n !in seen) && NoRepeatValues(ms)
  }

  ghost predicate RepeatsAfter(ms: Members, seen: set<Text>, k: Text) {
    || (exists i, j :: 0 <= i < j < |Names(ms)| && Names(ms)[i] == Names(ms)[j] == k)
    || (k in seen && k in Names(ms))
    || RepeatsInValues(ms, k)
  }

  lemma DistinctCons(k: Text, tail: seq<Text>)
    ensures Distinct([k] + tail) <==> k !in tail && Distinct(tail)
  {
    var all := [k] + tail;
    assert forall i | 0 <= i < |tail| :: tail[i] == all[i + 1];
    if Distinct(all) {
      forall i, j | 0 <= i < j < |tail| ensures tail[i] != tail[j] {
        assert all[i + 1] != all[j + 1];
      }
      forall i | 0 <= i < |tail| ensures tail[i] != k {
        assert all[0] != all[i + 1];
      }
    }
  }

  lemma {:induction false} NoRepeatAfterStep(ms: Members, seen: set<Text>)
    requires ms.MoreMembers?
    ensures NoRepeatAfter(ms, seen) <==>
            && ms.member.name.Decoded() !in seen
            && NoRepeat(ms.member.item.value)
            && NoRepeatAfter(ms.rest, seen + {ms.member.name.Decoded()})
  {
    var k, tail := ms.member.name.Decoded(), Names(ms.rest);
    DistinctCons(k, tail);
    assert forall n :: n in Names(ms) <==> n == k || n in tail;
  }

  lemma {:induction false} RepeatsAfterStep(ms: Members, seen: set<Text>, k: Text)
    requires ms.MoreMembers? && RepeatsAfter(ms.rest, seen + {ms.member.name.Decoded()}, k)
    ensures RepeatsAfter(ms, seen, k)
  {
    var all, tail := Names(ms), Names(ms.rest);
    assert forall i | 0 <= i < |tail| :: tail[i] == all[i + 1];
    if i, j :| 0 <= i < j < |tail| && tail[i] == tail[j] == k {
      assert all[i + 1] == all[j + 1] == k;
    } else if k in tail && k == all[0] {
      var j :| 0 <= j < |tail| && tail[j] == k;
      assert all[0] == all[j + 1] == k;
    }
  }

  // ---------------------------------------------------------- the scanner

  /** Why the scanner throws; `Unparsable` is the error of `JSON.parse` on a string literal. */
  datatype Failure = Malformed | Unparsable | Repeated(key: Text)

  datatype Scan<+T> = Done(tree: T, rest: Text) | Failed(why: Failure)

  /** Length of the white space at the start of `s`. */
  function Gap(s: Text): (n: nat)
    ensures n <= |s|
  {
    if s == [] || !Space(s[0]) then 0 else 1 + Gap(s[1..])
  }

  predicate StartsWith(s: Text, word: Text) {
    |word| <= |s| && s[..|word|] == word
  }

  predicate Next(s: Text, u: Unit) {
    s != [] && s[0] == u
  }

  /** `whitespace(); value(); whitespace()`. */
  function ScanItem(s: Text): (r: Scan<Item>)
    ensures r.Done? ==> |r.rest| < |s|
    decreases |s|, 2
  {
    var g := Gap(s);
    match ScanToken(s[g..])
    case Failed(why) => Failed(why)
    case Done(c, r) => Done(Item(s[..g], c, r[..Gap(r)]), r[Gap(r)..])
  }

  function ScanToken(t: Text): (r: Scan<Cst>)
    ensures r.Done? ==> |r.rest| < |t|
    decreases |t|, 1
  {
    if t == [] then Failed(Malformed)
    else if t[0] == LBRACE then ScanObject(t[1..])
    else if t[0] == LBRACKET then ScanArray(t[1..])
    else if t[0] == QUOTE then
      match ScanString(t)
      case Failed(why) => Failed(why)
      case Done(body, r) => Done(String(body), r)
    else if StartsWith(t, TRUE) then Done(Word(TRUE), t[4..])
    else if StartsWith(t, FALSE) then Done(Word(FALSE), t[5..])
    else if StartsWith(t, NULL) then Done(Word(NULL), t[4..])
    else
      match NumberLength(t)
      case None => Failed(Malformed)
      case Some(n) => Done(Number(t[..n]), t[n..])
  }

  function ScanString(t: Text): (r: Scan<Text>)
    requires t != []
    ensures r.Done? ==> |r.rest| + 2 <= |t|
  {
    match BodyLength(t[1..])
    case None => Failed(Malformed)
    case Some(n) =>
      if Decode(t[1..n + 1]).None? then Failed(Unparsable) else Done(t[1..n + 1], t[n + 2..])
  }

  /** After an opening bracket. */
  function ScanArray(t: Text): (r: Scan<Cst>)
    ensures r.Done? ==> |r.rest| < |t|
    decreases |t|, 4
  {
    var g := Gap(t);
    if Next(t[g..], RBRACKET) then Done(EmptyArray(t[..g]), t[g + 1..])
    else
      match ScanItems(t)
      case Failed(why) => Failed(why)
      case Done(items, r) => Done(Array(items), r)
  }

  function ScanItems(t: Text): (r: Scan<Items>)
    ensures r.Done? ==> |r.rest| < |t|
    decreases |t|, 3
  {
    match ScanItem(t)
    case Failed(why) => Failed(why)
    case Done(i, r) =>
      if Next(r, RBRACKET) then Done(LastItem(i), r[1..])
      else if Next(r, COMMA) then
        match ScanItems(r[1..])
        case Failed(why) => Failed(why)
        case Done(rest, r2) => Done(MoreItems(i, rest), r2)
      else Failed(Malformed)
  }

  /** After an opening brace. */
  function ScanObject(t: Text): (r: Scan<Cst>)
    ensures r.Done? ==> |r.rest| < |t|
    decreases |t|, 4
  {
    var g := Gap(t);
    if Next(t[g..], RBRACE) then Done(EmptyObject(t[..g]), t[g + 1..])
    else
      match ScanMembers(t, {})
      case Failed(why) => Failed(why)
      case Done(ms, r) => Done(Object(ms), r)
  }

  /** White space and a string literal: the white space and the body. */
  function ScanKey(t: Text): (r: Scan<(Text, Text)>)
    ensures r.Done? ==> |r.rest| < |t|
  {
    var g := Gap(t);
    if !Next(t[g..], QUOTE) then Failed(Malformed)
    else
      match ScanString(t[g..])
      case Failed(why) => Failed(why)
      case Done(body, r) => Done((t[..g], body), r)
  }

  /** White space and a colon: the white space. */
  function ScanColon(r: Text): (c: Scan<Text>)
    ensures c.Done? ==> |c.rest| < |r|
  {
    var h := Gap(r);
    if !Next(r[h..], COLON) then Failed(Malformed) else Done(r[..h], r[h + 1..])
  }

  /** A member name up to its colon, the name being new. */
  function ScanName(t: Text, seen: set<Text>): (r: Scan<Name>)
    ensures r.Done? ==> |r.rest| < |t|
  {
    match ScanKey(t)
    case Failed(why) => Failed(why)
    case Done(key, r) =>
      if Decode(key.1).GetOr([]) in seen then Failed(Repeated(Decode(key.1).GetOr([])))
      else
        match ScanColon(r)
        case Failed(why) => Failed(why)
        case Done(after, r2) => Done(Name(key.0, key.1, after), r2)
  }

  function ScanMembers(t: Text, seen: set<Text>): (r: Scan<Members>)
    ensures r.Done? ==> |r.rest| < |t|
    decreases |t|, 3
  {
    match ScanName(t, seen)
    case Failed(why) => Failed(why)
    case Done(name, r0) =>
      match ScanItem(r0)
      case Failed(why) => Failed(why)
      case Done(i, r) =>
        if Next(r, RBRACE) then Done(LastMember(Member(name, i)), r[1..])
        else if Next(r, COMMA) then
          match ScanMembers(r[1..], seen + {name.Decoded()})
          case Failed(why) => Failed(why)
          case Done(rest, r2) => Done(MoreMembers(Member(name, i), rest), r2)
        else Failed(Malformed)
  }

  /** `assertNoDuplicateJsonKeys(json)`: `None` when it returns normally. */
  function Check(json: Text): Option<Failure> {
    match ScanItem(json)
    case Failed(why) => Some(why)
    case Done(_, rest) => if rest == [] then None else Some(Malformed)
  }

  // ------------------------------------------------- accepted texts are JSON

  lemma {:induction false} GapIsGap(s: Text)
    ensures IsGap(s[..Gap(s)])
    ensures Gap(s) < |s| ==> !Space(s[Gap(s)])
  {
    if s != [] && Space(s[0]) {
      GapIsGap(s[1..]);
      var g := s[..Gap(s)];
      assert forall i | 0 < i < |g| :: g[i] == s[1..][..Gap(s[1..])][i - 1];
    }
  }

  lemma Cut(s: Text, n: nat)
    requires n <= |s|
    ensures s == s[..n] + s[n..]
  {
  }

  lemma CutAt(s: Text, n: nat)
    requires n < |s|
    ensures s[n..] != [] && s[n..][0] == s[n] && s == s[..n] + ([s[n]] + s[n + 1..])
  {
  }

  lemma {:induction false} ItemSound(s: Text)
    requires ScanItem(s).Done?
    ensures var r := ScanItem(s);
            s == WriteItem(r.tree, r.rest) && WfItem(r.tree) && NoRepeat(r.tree.value)
    decreases |s|, 2
  {
    GapIsGap(s);
    var t := s[Gap(s)..];
    TokenSound(t);
    var r := ScanToken(t).rest;
    GapIsGap(r);
    Cut(r, Gap(r));
    Cut(s, Gap(s));
  }

  lemma {:induction false} TokenSound(t: Text)
    requires ScanToken(t).Done?
    ensures var r := ScanToken(t);
            t == Write(r.tree, r.rest) && Wf(r.tree) && NoRepeat(r.tree)
    decreases |t|, 1
  {
    if t[0] == LBRACE {
      ObjectSound(t[1..]);
      assert t == [LBRACE] + t[1..];
    } else if t[0] == LBRACKET {
      ArraySound(t[1..]);
      assert t == [LBRACKET] + t[1..];
    } else if t[0] == QUOTE {
      StringSound(t);
    } else if !StartsWith(t, TRUE) && !StartsWith(t, FALSE) && !StartsWith(t, NULL) {
      NumberLengthPrefix(t);
    }
  }

  lemma StringSound(t: Text)
    requires t != [] && t[0] == QUOTE && ScanString(t).Done?
    ensures var r := ScanString(t);
            t == [QUOTE] + (r.tree + ([QUOTE] + r.rest)) && Decode(r.tree).Some?
  {
    var n := BodyLength(t[1..]).value;
    CutAt(t[1..], n);
    Shift(t, n);
  }

  lemma Shift(t: Text, n: nat)
    requires n + 1 < |t|
    ensures t == [t[0]] + t[1..] && t[1..n + 1] == t[1..][..n] && t[n + 2..] == t[1..][n + 1..]
  {
  }

  lemma {:induction false} ArraySound(t: Text)
    requires ScanArray(t).Done?
    ensures var r := ScanArray(t);
            [LBRACKET] + t == Write(r.tree, r.rest) && Wf(r.tree) && NoRepeat(r.tree)
    decreases |t|, 4
  {
    var g := Gap(t);
    GapIsGap(t);
    if Next(t[g..], RBRACKET) {
      CutAt(t, g);
    } else {
      ItemsSound(t);
    }
  }

  lemma {:induction false} ItemsSound(t: Text)
    requires ScanItems(t).Done?
    ensures var r := ScanItems(t);
            t == WriteItems(r.tree, [RBRACKET] + r.rest) && WfItems(r.tree) && NoRepeatItems(r.tree)
    decreases |t|, 3
  {
    ItemSound(t);
    var r := ScanItem(t).rest;
    assert r == [r[0]] + r[1..];
    if !Next(r, RBRACKET) {
      ItemsSound(r[1..]);
    }
  }

  lemma {:induction false} ObjectSound(t: Text)
    requires ScanObject(t).Done?
    ensures var r := ScanObject(t);
            [LBRACE] + t == Write(r.tree, r.rest) && Wf(r.tree) && NoRepeat(r.tree)
    decreases |t|, 4
  {
    var g := Gap(t);
    GapIsGap(t);
    if Next(t[g..], RBRACE) {
      CutAt(t, g);
    } else {
      MembersSound(t, {});
    }
  }

  lemma KeySound(t: Text)
    requires ScanKey(t).Done?
    ensures var r := ScanKey(t);
            && t == r.tree.0 + ([QUOTE] + (r.tree.1 + ([QUOTE] + r.rest)))
            && IsGap(r.tree.0) && Decode(r.tree.1).Some?
  {
    GapIsGap(t);
    Cut(t, Gap(t));
    StringSound(t[Gap(t)..]);
  }

  lemma ColonSound(r: Text)
    requires ScanColon(r).Done?
    ensures r == ScanColon(r).tree + ([COLON] + ScanColon(r).rest) && IsGap(ScanColon(r).tree)
  {
    GapIsGap(r);
    CutAt(r, Gap(r));
  }

  lemma NameSound(t: Text, seen: set<Text>)
    requires ScanName(t, seen).Done?
    ensures var r := ScanName(t, seen);
            t == WriteName(r.tree, r.rest) && WfName(r.tree) && r.tree.Decoded() !in seen
  {
    KeySound(t);
    ColonSound(ScanKey(t).rest);
  }

  /** One round of the member loop: what a name, an item and the unit after them lead to. */
  lemma ScanMembersRound(t: Text, seen: set<Text>)
    requires ScanMembers(t, seen).Done?
    ensures ScanName(t, seen).Done? && ScanItem(ScanName(t, seen).rest).Done?
    ensures var name := ScanName(t, seen);
            var item := ScanItem(name.rest);
            var ms := ScanMembers(t, seen);
            && item.rest != []
            && ms.tree.member == Member(name.tree, item.tree)
            && (ms.tree.LastMember? ==> item.rest == [RBRACE] + ms.rest)
            && (ms.tree.MoreMembers? ==>
                  && item.rest == [COMMA] + item.rest[1..]
                  && ScanMembers(item.rest[1..], seen + {name.tree.Decoded()}) == Done(ms.tree.rest, ms.rest))
  {
    var r := ScanItem(ScanName(t, seen).rest).rest;
    assert r == [r[0]] + r[1..];
  }

  lemma {:induction false} MembersSound(t: Text, seen: set<Text>)
    requires ScanMembers(t, seen).Done?
    ensures var r := ScanMembers(t, seen);
            && t == WriteMembers(r.tree, [RBRACE] + r.rest)
            && WfMembers(r.tree)
            && NoRepeatAfter(r.tree, seen)
    decreases |t|, 3
  {
    ScanMembersRound(t, seen);
    NameSound(t, seen);
    var name := ScanName(t, seen);
    ItemSound(name.rest);
    var item := ScanItem(name.rest);
    var ms := ScanMembers(t, seen).tree;
    if ms.MoreMembers? {
      MembersSound(item.rest[1..], seen + {name.tree.Decoded()});
      NoRepeatAfterStep(ms, seen);
    } else {
      assert Names(ms) == [ms.member.name.Decoded()];
    }
  }

  // ------------------------------------------- what the scanner does on JSON

  lemma {:induction false} GapOf(g: Text, rest: Text)
    requires IsGap(g) && (rest == [] || !Space(rest[0]))
    ensures Gap(g + rest) == |g|
  {
    if g == [] {
      assert g + rest == rest;
    } else {
      GapOf(g[1..], rest);
      assert (g + rest)[1..] == g[1..] + rest;
    }
  }

  lemma Split(a: Text, b: Text)
    ensures (a + b)[..|a|] == a && (a + b)[|a|..] == b
  {
  }

  /** A unit that may follow a complete item and is no part of it. */
  ghost predicate Closes(rest: Text) {
    rest == [] || rest[0] == COMMA || rest[0] == RBRACE || rest[0] == RBRACKET
  }

  lemma {:induction false} WriteStart(c: Cst, rest: Text)
    requires Wf(c)
    ensures Write(c, rest) != [] && !Space(Write(c, rest)[0])
    ensures Write(c, rest)[0] !in {COMMA, COLON, RBRACE, RBRACKET}
  {
  }

  lemma {:induction false} ItemRendered(i: Item, rest: Text)
    requires WfItem(i) && Closes(rest)
    ensures NoRepeat(i.value) ==> ScanItem(WriteItem(i, rest)) == Done(i, rest)
    ensures !NoRepeat(i.value) ==>
              var r := ScanItem(WriteItem(i, rest));
              r.Failed? && r.why.Repeated? && Repeats(i.value, r.why.key)
    decreases i, 1
  {
    var tail := i.after + rest;
    var t := Write(i.value, tail);
    WriteStart(i.value, tail);
    GapOf(i.before, t);
    Split(i.before, t);
    GapOf(i.after, rest);
    Split(i.after, rest);
    assert EndsNumber(tail);
    TokenRendered(i.value, tail);
  }

  lemma EmptyRendered(g: Text, close: Unit, rest: Text)
    requires IsGap(g) && !Space(close)
    ensures var t := g + ([close] + rest);
            && Gap(t) == |g| && t[..|g|] == g && t[|g|..] == [close] + rest
            && Next(t[|g|..], close) && t[|g| + 1..] == rest
  {
    var t := g + ([close] + rest);
    GapOf(g, [close] + rest);
    Split(g, [close] + rest);
    assert t[|g|..][1..] == t[|g| + 1..];
  }

  /** What `TokenRendered` says of one tree. */
  ghost predicate ReadsBack(c: Cst, rest: Text) {
    var r := ScanToken(Write(c, rest));
    if NoRepeat(c) then r == Done(c, rest) else r.Failed? && r.why.Repeated? && Repeats(c, r.why.key)
  }

  lemma EmptyArrayRendered(g: Text, rest: Text)
    requires IsGap(g)
    ensures ReadsBack(EmptyArray(g), rest)
  {
    EmptyRendered(g, RBRACKET, rest);
    assert Write(EmptyArray(g), rest)[1..] == g + ([RBRACKET] + rest);
  }

  lemma EmptyObjectRendered(g: Text, rest: Text)
    requires IsGap(g)
    ensures ReadsBack(EmptyObject(g), rest)
  {
    EmptyRendered(g, RBRACE, rest);
    assert Write(EmptyObject(g), rest)[1..] == g + ([RBRACE] + rest);
  }

  lemma WordRendered(w: Text, rest: Text)
    requires Wf(Word(w))
    ensures ReadsBack(Word(w), rest)
  {
    Split(w, rest);
    assert (w + rest)[0] == w[0];
  }

  lemma NumberStart(d: Text, rest: Text)
    requires NumberText(d)
    ensures var t := d + rest;
            && t != [] && (t[0] == MINUS || Digit(t[0]))
            && !StartsWith(t, TRUE) && !StartsWith(t, FALSE) && !StartsWith(t, NULL)
  {
    var t := d + rest;
    assert t[0] == d[0];
    forall w: Text | w != [] && StartsWith(t, w) ensures w[0] == t[0] {
      assert t[..|w|][0] == t[0];
    }
  }

  lemma NumberRendered(d: Text, rest: Text)
    requires NumberText(d) && EndsNumber(rest)
    ensures ReadsBack(Number(d), rest)
  {
    NumberLengthExtend(d, rest);
    NumberStart(d, rest);
    Split(d, rest);
    NumberToken(d + rest, |d|);
  }

  /** Text that starts like a number, and like nothing else, is read as one. */
  lemma NumberToken(t: Text, n: nat)
    requires t != [] && (t[0] == MINUS || Digit(t[0])) && NumberLength(t) == Some(n)
    requires !StartsWith(t, TRUE) && !StartsWith(t, FALSE) && !StartsWith(t, NULL)
    ensures ScanToken(t) == Done(Number(t[..n]), t[n..])
  {
  }

  lemma {:induction false} TokenRendered(c: Cst, rest: Text)
    requires Wf(c) && EndsNumber(rest)
    ensures ReadsBack(c, rest)
    decreases c, 2
  {
    match c
    case Word(w) =>
      WordRendered(w, rest);
    case Number(d) =>
      NumberRendered(d, rest);
    case String(b) =>
      StringRendered(b, rest);
    case EmptyArray(g) =>
      EmptyArrayRendered(g, rest);
    case EmptyObject(g) =>
      EmptyObjectRendered(g, rest);
    case Array(items) =>
      ArrayRendered(items, rest);
    case Object(ms) =>
      ObjectRendered(ms, rest);
  }

  lemma {:induction false} ArrayRendered(items: Items, rest: Text)
    requires WfItems(items)
    ensures ReadsBack(Array(items), rest)
    decreases items, 3
  {
    var t := WriteItems(items, [RBRACKET] + rest);
    ItemsRendered(items, rest);
    ItemsStart(items, [RBRACKET] + rest);
    assert ([LBRACKET] + t)[1..] == t;
    assert !Next(t[Gap(t)..], RBRACKET);
  }

  lemma {:induction false} ObjectRendered(ms: Members, rest: Text)
    requires WfMembers(ms)
    ensures ReadsBack(Object(ms), rest)
    decreases ms, 3
  {
    var t := WriteMembers(ms, [RBRACE] + rest);
    MembersRendered(ms, {}, rest);
    MembersStart(ms, [RBRACE] + rest);
    assert ([LBRACE] + t)[1..] == t;
    assert !Next(t[Gap(t)..], RBRACE);
  }

  lemma StringRendered(body: Text, rest: Text)
    requires Decode(body).Some?
    ensures ScanString([QUOTE] + (body + ([QUOTE] + rest))) == Done(body, rest)
  {
    var t := [QUOTE] + (body + ([QUOTE] + rest));
    assert t[1..] == body + ([QUOTE] + rest);
    BodyLengthOfDecodable(body, rest);
    assert t[1..|body| + 1] == body;
    assert t[|body| + 2..] == rest;
  }

  lemma {:induction false} ItemsStart(items: Items, rest: Text)
    requires WfItems(items)
    ensures var t := WriteItems(items, rest);
            Gap(t) < |t| && t[Gap(t)] != RBRACKET
  {
    var i := items.item;
    var tail := i.after + (if items.LastItem? then rest else [COMMA] + WriteItems(items.rest, rest));
    WriteStart(i.value, tail);
    GapOf(i.before, Write(i.value, tail));
  }

  lemma {:induction false} ItemsRendered(items: Items, rest: Text)
    requires WfItems(items)
    ensures NoRepeatItems(items) ==> ScanItems(WriteItems(items, [RBRACKET] + rest)) == Done(items, rest)
    ensures !NoRepeatItems(items) ==>
              var r := ScanItems(WriteItems(items, [RBRACKET] + rest));
              r.Failed? && r.why.Repeated? && RepeatsInItems(items, r.why.key)
    decreases items, 0
  {
    if items.LastItem? {
      ItemRendered(items.item, [RBRACKET] + rest);
    } else {
      var tail := WriteItems(items.rest, [RBRACKET] + rest);
      ItemRendered(items.item, [COMMA] + tail);
      ItemsRendered(items.rest, rest);
      assert ([COMMA] + tail)[1..] == tail;
    }
  }

  lemma {:induction false} MembersStart(ms: Members, rest: Text)
    requires WfMembers(ms)
    ensures var t := WriteMembers(ms, rest);
            Gap(t) < |t| && t[Gap(t)] != RBRACE
  {
    var m := ms.member;
    var rest' := WriteItem(m.item, if ms.LastMember? then rest else [COMMA] + WriteMembers(ms.rest, rest));
    GapOf(m.name.before, [QUOTE] + (m.name.body + ([QUOTE] + (m.name.after + ([COLON] + rest')))));
  }

  lemma NameRendered(n: Name, seen: set<Text>, rest: Text)
    requires WfName(n)
    ensures ScanName(WriteName(n, rest), seen)
         == if n.Decoded() in seen then Failed(Repeated(n.Decoded())) else Done(n, rest)
  {
    var tail := n.after + ([COLON] + rest);
    var u := [QUOTE] + (n.body + ([QUOTE] + tail));
    GapOf(n.before, u);
    Split(n.before, u);
    StringRendered(n.body, tail);
    assert ScanKey(WriteName(n, rest)) == Done((n.before, n.body), tail);
    EmptyRendered(n.after, COLON, rest);
    assert ScanColon(tail) == Done(n.after, rest);
  }

  ghost predicate MembersReadBack(ms: Members, seen: set<Text>, rest: Text) {
    var r := ScanMembers(WriteMembers(ms, [RBRACE] + rest), seen);
    if NoRepeatAfter(ms, seen) then r == Done(ms, rest)
    else r.Failed? && r.why.Repeated? && RepeatsAfter(ms, seen, r.why.key)
  }

  lemma {:induction false} MembersRendered(ms: Members, seen: set<Text>, rest: Text)
    requires WfMembers(ms)
    ensures MembersReadBack(ms, seen, rest)
    decreases ms, 1
  {
    var m := ms.member;
    assert Names(ms)[0] == m.name.Decoded();
    var tail := if ms.LastMember? then [RBRACE] + rest else [COMMA] + WriteMembers(ms.rest, [RBRACE] + rest);
    NameRendered(m.name, seen, WriteItem(m.item, tail));
    ItemRendered(m.item, tail);
    if ms.LastMember? {
      LastMemberRendered(m, seen, rest);
    } else {
      NoRepeatAfterStep(ms, seen);
      if m.name.Decoded() !in seen && NoRepeat(m.item.value) {
        MoreMembersRendered(ms, seen, rest);
      }
    }
  }

  lemma {:induction false} LastMemberRendered(m: Member, seen: set<Text>, rest: Text)
    requires WfMember(m)
    ensures MembersReadBack(LastMember(m), seen, rest)
    decreases m, 2
  {
    var end := [RBRACE] + rest;
    var t := WriteItem(m.item, end);
    LastMemberRepeats(m, seen);
    NameRendered(m.name, seen, t);
    if m.name.Decoded() !in seen {
      ItemRendered(m.item, end);
      assert end[1..] == rest;
      LastMemberScanned(WriteName(m.name, t), seen, m.name, t);
    }
  }

  /** For a last member only its own name and its value matter. */
  lemma LastMemberRepeats(m: Member, seen: set<Text>)
    ensures NoRepeatAfter(LastMember(m), seen) <==> m.name.Decoded() !in seen && NoRepeat(m.item.value)
    ensures m.name.Decoded() in seen ==> RepeatsAfter(LastMember(m), seen, m.name.Decoded())
    ensures forall k | Repeats(m.item.value, k) :: RepeatsAfter(LastMember(m), seen, k)
  {
    assert Names(LastMember(m)) == [m.name.Decoded()];
  }

  /** After a name, the value decides how the last member ends. */
  lemma LastMemberScanned(t: Text, seen: set<Text>, name: Name, r: Text)
    requires ScanName(t, seen) == Done(name, r)
    ensures ScanItem(r).Failed? ==> ScanMembers(t, seen) == Failed(ScanItem(r).why)
    ensures ScanItem(r).Done? && Next(ScanItem(r).rest, RBRACE) ==>
              ScanMembers(t, seen) == Done(LastMember(Member(name, ScanItem(r).tree)), ScanItem(r).rest[1..])
  {
  }

  lemma {:induction false} MoreMembersRendered(ms: Members, seen: set<Text>, rest: Text)
    requires WfMembers(ms) && ms.MoreMembers?
    requires ms.member.name.Decoded() !in seen && NoRepeat(ms.member.item.value)
    ensures MembersReadBack(ms, seen, rest)
    decreases ms, 0
  {
    var m := ms.member;
    var t := WriteMembers(ms.rest, [RBRACE] + rest);
    var seen' := seen + {m.name.Decoded()};
    NameRendered(m.name, seen, WriteItem(m.item, [COMMA] + t));
    ItemRendered(m.item, [COMMA] + t);
    NoRepeatAfterStep(ms, seen);
    assert ([COMMA] + t)[1..] == t;
    MembersRendered(ms.rest, seen', rest);
    var r := ScanMembers(t, seen');
    if !NoRepeatAfter(ms.rest, seen') {
      RepeatsAfterStep(ms, seen, r.why.key);
    }
  }

  // ------------------------------------------------------------ main results

  ghost predicate IsJson(text: Text, doc: Item) {
    WfItem(doc) && WriteItem(doc, []) == text
  }

  /** The check returns normally exactly on the texts of one value in which no name repeats. */
  lemma AcceptsExactly(text: Text)
    ensures Check(text).None? <==> exists doc :: IsJson(text, doc) && NoRepeat(doc.value)
  {
    if Check(text).None? {
      ItemSound(text);
      assert IsJson(text, ScanItem(text).tree);
    }
    forall doc | IsJson(text, doc) && NoRepeat(doc.value) ensures Check(text).None? {
      ItemRendered(doc, []);
    }
  }

  /**
    On the text of a value the only error is the duplicate one, it is raised exactly when a
    name repeats, and the key it names is one that repeats.
   */
  lemma RepeatReported(text: Text, doc: Item)
    requires IsJson(text, doc)
    ensures Check(text).Some? <==> !NoRepeat(doc.value)
    ensures Check(text).Some? ==> Check(text).value.Repeated? && Repeats(doc.value, Check(text).value.key)
  {
    ItemRendered(doc, []);
  }

  /** An accepted text has one reading: its tree is unique. */
  lemma ReadingIsUnique(text: Text, doc: Item)
    requires IsJson(text, doc) && NoRepeat(doc.value)
    ensures ScanItem(text) == Done(doc, [])
  {
    ItemRendered(doc, []);
  }

  // ---------------------------------- the error on texts that are not JSON

  /** The beginning of a JSON text, cut just after a member name. */
  datatype Open =
    | OpenArray(before: Text, items: seq<Item>, inner: Open)
    | OpenObject(before: Text, heads: seq<Member>, tail: Tail)

  datatype Tail = Key(before: Text, body: Text) | Inside(name: Name, inner: Open)

  function WriteOpen(o: Open, rest: Text): Text {
    match o
    case OpenArray(b, items, inner) => b + ([LBRACKET] + WriteItemHeads(items, WriteOpen(inner, rest)))
    case OpenObject(b, heads, tail) => b + ([LBRACE] + WriteHeads(heads, WriteTail(tail, rest)))
  }

  function WriteTail(tail: Tail, rest: Text): Text {
    match tail
    case Key(b, body) => b + ([QUOTE] + (body + ([QUOTE] + rest)))
    case Inside(name, inner) => WriteName(name, WriteOpen(inner, rest))
  }

  function WriteItemHeads(items: seq<Item>, rest: Text): Text {
    if items == [] then rest else WriteItem(items[0], [COMMA] + WriteItemHeads(items[1..], rest))
  }

  function WriteHeads(heads: seq<Member>, rest: Text): Text {
    if heads == [] then rest else WriteMember(heads[0], [COMMA] + WriteHeads(heads[1..], rest))
  }

  ghost predicate WfOpen(o: Open) {
    match o
    case OpenArray(b, items, inner) => IsGap(b) && (forall i | i in items :: WfItem(i)) && WfOpen(inner)
    case OpenObject(b, heads, tail) => IsGap(b) && (forall m | m in heads :: WfMember(m)) && WfTail(tail)
  }

  ghost predicate WfTail(tail: Tail) {
    match tail
    case Key(b, body) => IsGap(b) && Decode(body).Some?
    case Inside(name, inner) => WfName(name) && WfOpen(inner)
  }

  /** The innermost open object already has a complete member of the name the text is cut after. */
  ghost predicate CutAtRepeat(o: Open, k: Text) {
    match o
    case OpenArray(_, _, inner) => CutAtRepeat(inner, k)
    case OpenObject(_, heads, Key(_, body)) =>
      Decode(body) == Some(k) && exists m :: m in heads && m.name.Decoded() == k
    case OpenObject(_, _, Inside(_, inner)) => CutAtRepeat(inner, k)
  }

  ghost predicate TailRepeats(tail: Tail, heads: seq<Member>, seen: set<Text>, k: Text) {
    match tail
    case Key(_, body) =>
      Decode(body) == Some(k) && (k in seen || exists m :: m in heads && m.name.Decoded() == k)
    case Inside(_, inner) => CutAtRepeat(inner, k)
  }

  predicate Duplicate<T>(r: Scan<T>) {
    r.Failed? && r.why.Repeated?
  }

  /** Only the member loop finds a repeat. */
  lemma TokenRepeat(t: Text)
    requires Duplicate(ScanToken(t))
    ensures t != [] && (t[0] == LBRACE || t[0] == LBRACKET)
    ensures t[0] == LBRACE ==> ScanMembers(t[1..], {}) == Failed(ScanToken(t).why)
    ensures t[0] == LBRACKET ==> ScanItems(t[1..]) == Failed(ScanToken(t).why)
  {
    assert t != [] ==> !Duplicate(ScanString(t));
  }

  lemma {:induction false} ItemRepeat(s: Text) returns (o: Open, rest: Text)
    requires Duplicate(ScanItem(s))
    ensures s == WriteOpen(o, rest) && WfOpen(o) && CutAtRepeat(o, ScanItem(s).why.key)
    decreases |s|, 2
  {
    var g := Gap(s);
    var t := s[g..];
    GapIsGap(s);
    TokenRepeat(t);
    CutAt(s, g);
    if t[0] == LBRACE {
      var heads, tail, rest' := MembersRepeat(t[1..], {});
      o, rest := OpenObject(s[..g], heads, tail), rest';
    } else {
      var items, inner, rest' := ItemsRepeat(t[1..]);
      o, rest := OpenArray(s[..g], items, inner), rest';
    }
  }

  lemma {:induction false} ItemsRepeat(t: Text) returns (items: seq<Item>, inner: Open, rest: Text)
    requires Duplicate(ScanItems(t))
    ensures t == WriteItemHeads(items, WriteOpen(inner, rest))
    ensures (forall i | i in items :: WfItem(i)) && WfOpen(inner) && CutAtRepeat(inner, ScanItems(t).why.key)
    decreases |t|, 3
  {
    if Duplicate(ScanItem(t)) {
      inner, rest := ItemRepeat(t);
      items := [];
    } else {
      ItemSound(t);
      var i := ScanItem(t);
      assert i.rest == [COMMA] + i.rest[1..];
      items, inner, rest := ItemsRepeat(i.rest[1..]);
      ghost var more := items;
      items := [i.tree] + items;
      assert items[1..] == more;
    }
  }

  lemma {:induction false} MembersRepeat(t: Text, seen: set<Text>)
    returns (heads: seq<Member>, tail: Tail, rest: Text)
    requires Duplicate(ScanMembers(t, seen))
    ensures t == WriteHeads(heads, WriteTail(tail, rest))
    ensures (forall m | m in heads :: WfMember(m)) && WfTail(tail)
    ensures TailRepeats(tail, heads, seen, ScanMembers(t, seen).why.key)
    decreases |t|, 3
  {
    if Duplicate(ScanName(t, seen)) {
      KeySound(t);
      heads, tail, rest := [], Key(ScanKey(t).tree.0, ScanKey(t).tree.1), ScanKey(t).rest;
    } else {
      NameSound(t, seen);
      var name := ScanName(t, seen);
      if Duplicate(ScanItem(name.rest)) {
        var inner, rest' := ItemRepeat(name.rest);
        heads, tail, rest := [], Inside(name.tree, inner), rest';
      } else {
        LaterRepeat(t, seen);
        ItemSound(name.rest);
        var i := ScanItem(name.rest);
        var seen' := seen + {name.tree.Decoded()};
        var more: seq<Member>;
        more, tail, rest := MembersRepeat(i.rest[1..], seen');
        heads := [Member(name.tree, i.tree)] + more;
        HeadsCons(Member(name.tree, i.tree), more, tail, seen, ScanMembers(t, seen).why.key);
      }
    }
  }

  lemma LaterRepeat(t: Text, seen: set<Text>)
    requires Duplicate(ScanMembers(t, seen)) && ScanName(t, seen).Done? && ScanItem(ScanName(t, seen).rest).Done?
    ensures var name := ScanName(t, seen);
            var r := ScanItem(name.rest).rest;
            && Next(r, COMMA) && r == [COMMA] + r[1..]
            && ScanMembers(r[1..], seen + {name.tree.Decoded()}) == Failed(ScanMembers(t, seen).why)
  {
    var name := ScanName(t, seen);
    var r := ScanItem(name.rest).rest;
    assert Next(r, COMMA) && ScanMembers(r[1..], seen + {name.tree.Decoded()}) == Failed(ScanMembers(t, seen).why);
    Uncons(r, COMMA);
  }

  lemma Uncons(r: Text, u: Unit)
    requires Next(r, u)
    ensures r == [u] + r[1..]
  {
  }

  lemma HeadsCons(m: Member, more: seq<Member>, tail: Tail, seen: set<Text>, k: Text)
    requires TailRepeats(tail, more, seen + {m.name.Decoded()}, k)
    ensures TailRepeats(tail, [m] + more, seen, k)
    ensures ([m] + more)[0] == m && ([m] + more)[1..] == more
  {
    var heads := [m] + more;
    assert heads[0] == m && heads[1..] == more;
    assert forall x | x in more :: x in heads;
    assert m in heads;
  }

  /**
    On any text, the duplicate error means a real repeat: the text begins like JSON up to a
    name that a complete member of the same object already has.
   */
  lemma RepeatIsReal(text: Text) returns (o: Open, rest: Text)
    requires Check(text).Some? && Check(text).value.Repeated?
    ensures text == WriteOpen(o, rest) && WfOpen(o) && CutAtRepeat(o, Check(text).value.key)
  {
    o, rest := ItemRepeat(text);
  }

  // -------------------------------------------------- first wins, last wins

  /** The value a JSON text denotes; members are a map, numbers are kept as their text. */
  datatype Data =
    | DNull
    | DBool(b: bool)
    | DNumber(digits: Text)
    | DString(s: Text)
    | DArray(items: seq<Data>)
    | DObject(members: map<Text, Data>)

  datatype Policy = FirstWins | LastWins

  /** Reading a tree when a parser keeps the first, or the last, of the members of one name. */
  function Read(c: Cst, p: Policy): Data {
    match c
    case Word(w) => if w == TRUE then DBool(true) else if w == FALSE then DBool(false) else DNull
    case Number(d) => DNumber(d)
    case String(b) => DString(Decode(b).GetOr([]))
    case EmptyArray(_) => DArray([])
    case Array(items) => DArray(ReadItems(items, p))
    case EmptyObject(_) => DObject(map[])
    case Object(ms) => DObject(ReadMembers(ms, p))
  }

  function ReadItems(items: Items, p: Policy): seq<Data> {
    [Read(items.item.value, p)] + if items.MoreItems? then ReadItems(items.rest, p) else []
  }

  function ReadMembers(ms: Members, p: Policy): (r: map<Text, Data>)
    ensures forall k :: k in r <==> k in Names(ms)
  {
    var k := ms.member.name.Decoded();
    var v := Read(ms.member.item.value, p);
    if ms.LastMember? then map[k := v]
    else
      var rest := ReadMembers(ms.rest, p);
      if p.LastWins? && k in rest then rest else rest[k := v]
  }

  /** Where no name repeats, every parser reads the same value. */
  lemma {:induction false} ReadingsAgree(c: Cst)
    requires NoRepeat(c)
    ensures Read(c, FirstWins) == Read(c, LastWins)
    decreases c, 1
  {
    match c
    case Array(items) => ItemReadingsAgree(items);
    case Object(ms) => MemberReadingsAgree(ms);
    case _ =>
  }

  lemma {:induction false} ItemReadingsAgree(items: Items)
    requires NoRepeatItems(items)
    ensures ReadItems(items, FirstWins) == ReadItems(items, LastWins)
    decreases items, 0
  {
    ReadingsAgree(items.item.value);
    if items.MoreItems? {
      ItemReadingsAgree(items.rest);
    }
  }

  lemma {:induction false} MemberReadingsAgree(ms: Members)
    requires Distinct(Names(ms)) && NoRepeatValues(ms)
    ensures ReadMembers(ms, FirstWins) == ReadMembers(ms, LastWins)
    decreases ms, 0
  {
    ReadingsAgree(ms.member.item.value);
    if ms.MoreMembers? {
      DistinctCons(ms.member.name.Decoded(), Names(ms.rest));
      MemberReadingsAgree(ms.rest);
    }
  }

  /** What an accepted request body means does not depend on who parses it. */
  lemma AcceptedTextIsUnambiguous(text: Text, doc: Item)
    requires Check(text).None? && IsJson(text, doc)
    ensures Read(doc.value, FirstWins) == Read(doc.value, LastWins)
  {
    RepeatReported(text, doc);
    ReadingsAgree(doc.value);
  }

  // ------------------------------------------------- white space beyond JSON

  predicate IsJsonGap(g: Text) {
    forall i | 0 <= i < |g| :: JsonSpace(g[i])
  }

  /** Every white space of the tree is white space of RFC 8259. */
  ghost predicate StrictGaps(c: Cst) {
    match c
    case EmptyArray(g) => IsJsonGap(g)
    case EmptyObject(g) => IsJsonGap(g)
    case Array(items) => StrictItemsGaps(items)
    case Object(ms) => StrictMembersGaps(ms)
    case _ => true
  }

  ghost predicate StrictItemGaps(i: Item) {
    IsJsonGap(i.before) && StrictGaps(i.value) && IsJsonGap(i.after)
  }

  ghost predicate StrictItemsGaps(items: Items) {
    StrictItemGaps(items.item) && (items.MoreItems? ==> StrictItemsGaps(items.rest))
  }

  ghost predicate StrictMembersGaps(ms: Members) {
    && IsJsonGap(ms.member.name.before) && IsJsonGap(ms.member.name.after)
    && StrictItemGaps(ms.member.item)
    && (ms.MoreMembers? ==> StrictMembersGaps(ms.rest))
  }

  /** JSON in the grammar of RFC 8259, that is, with its white space only. */
  ghost predicate IsRfcJson(text: Text, doc: Item) {
    IsJson(text, doc) && StrictItemGaps(doc)
  }

  /**
    One pass over the text, in or out of a string literal: outside of literals there is no
    white space but that of RFC 8259.
   */
  predicate JsonSpacesOnly(t: Text, inString: bool)
    decreases |t|
  {
    if t == [] then true
    else if !inString then (Space(t[0]) ==> JsonSpace(t[0])) && JsonSpacesOnly(t[1..], t[0] == QUOTE)
    else if t[0] == BACKSLASH && |t| > 1 then JsonSpacesOnly(t[2..], true)
    else JsonSpacesOnly(t[1..], t[0] != QUOTE)
  }

  lemma {:induction false} SpacesOfGap(g: Text, rest: Text)
    requires IsGap(g)
    ensures JsonSpacesOnly(g + rest, false) <==> IsJsonGap(g) && JsonSpacesOnly(rest, false)
  {
    if g == [] {
      assert g + rest == rest;
    } else {
      SpacesOfGap(g[1..], rest);
      SliceAppend(g, rest, 1);
      assert IsJsonGap(g) <==> JsonSpace(g[0]) && IsJsonGap(g[1..]);
    }
  }

  /** No white space and no quote: a word, a number, a separator. */
  predicate Plain(p: Text) {
    forall i | 0 <= i < |p| :: !Space(p[i]) && p[i] != QUOTE
  }

  lemma {:induction false} SpacesOfPlain(p: Text, rest: Text)
    requires Plain(p)
    ensures JsonSpacesOnly(p + rest, false) <==> JsonSpacesOnly(rest, false)
  {
    if p == [] {
      assert p + rest == rest;
    } else {
      SpacesOfPlain(p[1..], rest);
      SliceAppend(p, rest, 1);
    }
  }

  lemma SpacesOfMark(u: Unit, rest: Text)
    requires !Space(u) && u != QUOTE
    ensures JsonSpacesOnly([u] + rest, false) <==> JsonSpacesOnly(rest, false)
  {
    SpacesOfPlain([u], rest);
  }

  lemma {:induction false} SpacesInHex(p: Text, rest: Text)
    requires forall i | 0 <= i < |p| :: p[i] != QUOTE && p[i] != BACKSLASH
    ensures JsonSpacesOnly(p + rest, true) <==> JsonSpacesOnly(rest, true)
  {
    if p == [] {
      assert p + rest == rest;
    } else {
      SpacesInHex(p[1..], rest);
      SliceAppend(p, rest, 1);
    }
  }

  lemma SpacesInUnicode(body: Text, tail: Text)
    requires |body| >= 6 && body[0] == BACKSLASH
    requires FourHexDigits(body[2], body[3], body[4], body[5]).Some?
    ensures JsonSpacesOnly(body + tail, true) <==> JsonSpacesOnly(body[6..] + tail, true)
  {
    SliceAppend(body, tail, 2);
    SpacesInHex(body[2..6], body[6..] + tail);
    assert body[2..] + tail == body[2..6] + (body[6..] + tail);
  }

  /** The pass leaves a literal where its body ends. */
  lemma {:induction false} SpacesInBody(body: Text, rest: Text)
    requires Decode(body).Some?
    ensures JsonSpacesOnly(body + ([QUOTE] + rest), true) <==> JsonSpacesOnly(rest, false)
  {
    var tail := [QUOTE] + rest;
    if body == [] {
      assert body + tail == tail && tail[1..] == rest;
    } else if body[0] != BACKSLASH {
      SpacesInBody(body[1..], rest);
      SliceAppend(body, tail, 1);
    } else if body[1] == 0x75 {
      SpacesInBody(body[6..], rest);
      SpacesInUnicode(body, tail);
    } else {
      SpacesInBody(body[2..], rest);
      SliceAppend(body, tail, 2);
    }
  }

  lemma SpacesOfString(body: Text, rest: Text)
    requires Decode(body).Some?
    ensures JsonSpacesOnly([QUOTE] + (body + ([QUOTE] + rest)), false) <==> JsonSpacesOnly(rest, false)
  {
    SpacesInBody(body, rest);
    assert ([QUOTE] + (body + ([QUOTE] + rest)))[1..] == body + ([QUOTE] + rest);
  }

  lemma {:induction false} DigitsArePlain(s: Text)
    ensures Plain(s[..DigitRun(s)])
  {
    if s != [] && Digit(s[0]) {
      DigitsArePlain(s[1..]);
      assert s[..DigitRun(s)] == [s[0]] + s[1..][..DigitRun(s[1..])];
    }
  }

  /** Between `k` and the end of the digits that follow there are only plain units. */
  lemma PlainUpTo(s: Text, k: nat)
    requires k <= |s| && Plain(s[..k])
    ensures Plain(s[..k + DigitRun(s[k..])])
  {
    DigitsArePlain(s[k..]);
    assert s[..k + DigitRun(s[k..])] == s[..k] + s[k..][..DigitRun(s[k..])];
  }

  lemma IntegerIsPlain(s: Text)
    requires IntegerLength(s).Some?
    ensures Plain(s[..IntegerLength(s).value])
  {
    var sign := if s[0] == MINUS then 1 else 0;
    if s[sign] != ZERO {
      PlainUpTo(s, sign);
    }
  }

  lemma FractionIsPlain(s: Text)
    ensures Plain(s[..FractionLength(s)])
  {
    if FractionLength(s) > 0 {
      PlainUpTo(s, 1);
    }
  }

  lemma ExponentIsPlain(s: Text)
    ensures Plain(s[..ExponentLength(s)])
  {
    if ExponentLength(s) > 0 {
      PlainUpTo(s, if |s| > 1 && (s[1] == PLUS || s[1] == MINUS) then 2 else 1);
    }
  }

  lemma NumberIsPlain(d: Text)
    requires NumberText(d)
    ensures Plain(d)
  {
    var i := IntegerLength(d).value;
    var f := FractionLength(d[i..]);
    IntegerIsPlain(d);
    FractionIsPlain(d[i..]);
    ExponentIsPlain(d[i + f..]);
    assert d == d[..i] + d[i..][..f] + d[i + f..][..ExponentLength(d[i + f..])];
  }

  lemma SpacesOfEmpty(open: Unit, g: Text, close: Unit, rest: Text)
    requires IsGap(g) && !Space(open) && open != QUOTE && !Space(close) && close != QUOTE
    ensures JsonSpacesOnly([open] + (g + ([close] + rest)), false) <==> IsJsonGap(g) && JsonSpacesOnly(rest, false)
  {
    SpacesOfMark(open, g + ([close] + rest));
    SpacesOfGap(g, [close] + rest);
    SpacesOfMark(close, rest);
  }

  /** On the text of a value the pass looks at exactly the gaps of its tree. */
  lemma {:induction false} SpacesOfValue(c: Cst, rest: Text)
    requires Wf(c)
    ensures JsonSpacesOnly(Write(c, rest), false) <==> StrictGaps(c) && JsonSpacesOnly(rest, false)
    decreases c
  {
    match c
    case Word(w) => SpacesOfPlain(w, rest);
    case Number(d) =>
      NumberIsPlain(d);
      SpacesOfPlain(d, rest);
    case String(b) => SpacesOfString(b, rest);
    case EmptyArray(g) => SpacesOfEmpty(LBRACKET, g, RBRACKET, rest);
    case EmptyObject(g) => SpacesOfEmpty(LBRACE, g, RBRACE, rest);
    case Array(items) =>
      SpacesOfMark(LBRACKET, WriteItems(items, [RBRACKET] + rest));
      SpacesOfItems(items, [RBRACKET] + rest);
      SpacesOfMark(RBRACKET, rest);
    case Object(ms) =>
      SpacesOfMark(LBRACE, WriteMembers(ms, [RBRACE] + rest));
      SpacesOfMembers(ms, [RBRACE] + rest);
      SpacesOfMark(RBRACE, rest);
  }

  lemma {:induction false} SpacesOfItem(i: Item, rest: Text)
    requires WfItem(i)
    ensures JsonSpacesOnly(WriteItem(i, rest), false) <==> StrictItemGaps(i) && JsonSpacesOnly(rest, false)
    decreases i
  {
    SpacesOfGap(i.before, Write(i.value, i.after + rest));
    SpacesOfValue(i.value, i.after + rest);
    SpacesOfGap(i.after, rest);
  }

  lemma {:induction false} SpacesOfItems(items: Items, rest: Text)
    requires WfItems(items)
    ensures JsonSpacesOnly(WriteItems(items, rest), false) <==> StrictItemsGaps(items) && JsonSpacesOnly(rest, false)
    decreases items
  {
    if items.MoreItems? {
      SpacesOfItem(items.item, [COMMA] + WriteItems(items.rest, rest));
      SpacesOfMark(COMMA, WriteItems(items.rest, rest));
      SpacesOfItems(items.rest, rest);
    } else {
      SpacesOfItem(items.item, rest);
    }
  }

  lemma SpacesOfName(n: Name, rest: Text)
    requires WfName(n)
    ensures JsonSpacesOnly(WriteName(n, rest), false)
            <==> IsJsonGap(n.before) && IsJsonGap(n.after) && JsonSpacesOnly(rest, false)
  {
    SpacesOfGap(n.before, [QUOTE] + (n.body + ([QUOTE] + (n.after + ([COLON] + rest)))));
    SpacesOfString(n.body, n.after + ([COLON] + rest));
    SpacesOfGap(n.after, [COLON] + rest);
    SpacesOfMark(COLON, rest);
  }

  lemma {:induction false} SpacesOfMembers(ms: Members, rest: Text)
    requires WfMembers(ms)
    ensures JsonSpacesOnly(WriteMembers(ms, rest), false) <==> StrictMembersGaps(ms) && JsonSpacesOnly(rest, false)
    decreases ms
  {
    var m := ms.member;
    if ms.MoreMembers? {
      SpacesOfName(m.name, WriteItem(m.item, [COMMA] + WriteMembers(ms.rest, rest)));
      SpacesOfItem(m.item, [COMMA] + WriteMembers(ms.rest, rest));
      SpacesOfMark(COMMA, WriteMembers(ms.rest, rest));
      SpacesOfMembers(ms.rest, rest);
    } else {
      SpacesOfName(m.name, WriteItem(m.item, rest));
      SpacesOfItem(m.item, rest);
    }
  }

  /**
    The scanner's white space is wider than JSON's: an accepted text is JSON in the sense of
    RFC 8259 exactly when, outside of its string literals, it has no white space of the other
    kinds.
   */
  lemma AcceptedIsRfcJson(text: Text)
    requires Check(text).None?
    ensures (exists doc :: IsRfcJson(text, doc)) <==> JsonSpacesOnly(text, false)
  {
    ItemSound(text);
    var doc := ScanItem(text).tree;
    SpacesOfItem(doc, []);
    if StrictItemGaps(doc) {
      assert IsRfcJson(text, doc);
    }
    forall d | IsRfcJson(text, d) ensures JsonSpacesOnly(text, false) {
      SpacesOfItem(d, []);
    }
  }

  /** A no-break space before a digit: accepted, and not JSON. */
  lemma AcceptedTextThatIsNotRfcJson()
    ensures var text: Text := [0xA0, ZERO];
            Check(text).None? && !exists doc :: IsRfcJson(text, doc)
  {
    var text: Text := [0xA0, ZERO];
    var doc := Item([0xA0], Number([ZERO]), []);
    assert DigitRun([ZERO][1..]) == 0;
    assert [ZERO][1..] == [];
    assert NumberText([ZERO]);
    assert text == WriteItem(doc, []);
    ItemRendered(doc, []);
    AcceptedIsRfcJson(text);
  }
}
