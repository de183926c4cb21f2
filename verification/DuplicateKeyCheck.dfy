/**
  `assertNoDuplicateJsonKeys` as it runs: nested procedures that move one shared index, and a
  set of the names met so far in each object. Every procedure is proved to end where the
  corresponding function of `JsonScanner` does, or to throw the same error.
 */
module DuplicateKeyCheck {
  import opened Basics
  import opened JsonLexemes
  import opened JsonScanner

  /** Two scans that leave the same rest or fail alike; the trees they build do not matter here. */
  predicate SameEnd<A, B>(a: Scan<A>, b: Scan<B>) {
    if a.Failed? then b.Failed? && a.why == b.why else b.Done? && a.rest == b.rest
  }

  lemma GapTwice(t: Text)
    ensures Gap(t[Gap(t)..]) == 0
    ensures t[Gap(t)..][Gap(t[Gap(t)..])..] == t[Gap(t)..]
  {
    GapIsGap(t);
  }

  lemma ItemsAfterGap(t: Text)
    ensures SameEnd(ScanItems(t[Gap(t)..]), ScanItems(t))
  {
    GapTwice(t);
    assert SameEnd(ScanItem(t[Gap(t)..]), ScanItem(t));
  }

  lemma KeyAfterGap(t: Text)
    ensures SameEnd(ScanKey(t[Gap(t)..]), ScanKey(t))
    ensures ScanKey(t).Done? ==> ScanKey(t[Gap(t)..]).tree.1 == ScanKey(t).tree.1
  {
    GapTwice(t);
  }

  lemma NameAfterGap(t: Text)
    ensures SameEnd(ScanName(t[Gap(t)..], {}), ScanName(t, {}))
    ensures ScanName(t, {}).Done? ==> ScanName(t[Gap(t)..], {}).tree.Decoded() == ScanName(t, {}).tree.Decoded()
  {
    KeyAfterGap(t);
  }

  lemma MembersAfterGap(t: Text)
    ensures SameEnd(ScanMembers(t[Gap(t)..], {}), ScanMembers(t, {}))
  {
    var u := t[Gap(t)..];
    NameAfterGap(t);
    var name, name' := ScanName(t, {}), ScanName(u, {});
    if name.Done? && ScanItem(name.rest).Done? {
      MembersRound(t, {});
      MembersRound(u, {});
    }
  }

  /** How one round of the member loop ends, from the unit after a complete member. */
  lemma MembersRound(s: Text, keys: set<Text>)
    requires ScanName(s, keys).Done? && ScanItem(ScanName(s, keys).rest).Done?
    ensures var name := ScanName(s, keys);
            var r := ScanItem(name.rest).rest;
            var all := ScanMembers(s, keys);
            if Next(r, RBRACE) then all.Done? && all.rest == r[1..]
            else if Next(r, COMMA) then SameEnd(ScanMembers(r[1..], keys + {name.tree.Decoded()}), all)
            else all == Failed(Malformed)
  {
  }

  lemma ItemsRound(s: Text)
    requires ScanItem(s).Done?
    ensures var r := ScanItem(s).rest;
            var all := ScanItems(s);
            if Next(r, RBRACKET) then all.Done? && all.rest == r[1..]
            else if Next(r, COMMA) then SameEnd(ScanItems(r[1..]), all)
            else all == Failed(Malformed)
  {
  }

  lemma NoItems()
    ensures ScanItems([]) == Failed(Malformed)
    ensures ScanMembers([], {}) == Failed(Malformed)
  {
  }

  /** Where the walk from `k` finds the closing quote, if it does. */
  function Walk(s: Text, k: nat): Option<nat>
    decreases |s| - k
  {
    if k >= |s| then None
    else if s[k] == QUOTE then Some(k)
    else if s[k] == BACKSLASH then Walk(s, k + 2)
    else if s[k] < 0x20 then None
    else Walk(s, k + 1)
  }

  /** The walk by index finds the end of the body that the grammar finds. */
  lemma {:induction false} WalkIsBodyLength(s: Text, k: nat)
    requires k <= |s|
    ensures Walk(s, k) == if BodyLength(s[k..]).Some? then Some(k + BodyLength(s[k..]).value) else None
    decreases |s| - k
  {
    if k < |s| && s[k] != QUOTE {
      if s[k] == BACKSLASH {
        if k + 2 <= |s| {
          WalkIsBodyLength(s, k + 2);
          assert s[k..][2..] == s[k + 2..];
        }
      } else if s[k] >= 0x20 {
        WalkIsBodyLength(s, k + 1);
        assert s[k..][1..] == s[k + 1..];
      }
    }
  }

  class Scanner {
    const json: Text
    var index: nat

    constructor (json: Text)
      ensures this.json == json && index == 0
    {
      this.json := json;
      index := 0;
    }

    ghost function Rest(): Text
      reads this
      requires index <= |json|
    {
      json[index..]
    }

    /** The procedure threw what the scan fails with, or stopped where the scan stops. */
    ghost predicate Ended<T>(s: Scan<T>, thrown: Option<Failure>)
      reads this
    {
      match thrown
      case Some(why) => s == Failed(why)
      case None => s.Done? && index <= |json| && Rest() == s.rest
    }

    method Whitespace()
      requires index <= |json|
      modifies this
      ensures index <= |json| && Rest() == old(Rest())[Gap(old(Rest()))..]
    {
      ghost var s := Rest();
      while index < |json| && Space(json[index])
        invariant old(index) <= index <= |json|
        invariant index - old(index) <= Gap(s)
        invariant Gap(Rest()) == Gap(s) - (index - old(index))
      {
        assert Rest()[1..] == json[index + 1..];
        index := index + 1;
      }
      assert Gap(Rest()) == 0;
      assert s[Gap(s)..] == Rest();
    }

    /** The walk of `string()` to the closing quote; `closed` is false where it throws. */
    method SkipString() returns (closed: bool)
      requires index < |json| && json[index] == QUOTE
      modifies this
      ensures closed <==> BodyLength(old(Rest())[1..]).Some?
      ensures closed ==>
                && index == old(index) + BodyLength(old(Rest())[1..]).value + 2
                && index <= |json|
    {
      WalkIsBodyLength(json, index + 1);
      assert Rest()[1..] == json[index + 1..];
      index := index + 1;
      while index < |json| && json[index] != QUOTE
        invariant old(index) + 1 <= index
        invariant Walk(json, index) == Walk(json, old(index) + 1)
        decreases |json| - index
      {
        var token := json[index];
        if token == BACKSLASH {
          index := index + 2;
          continue;
        }
        if token < 0x20 {
          return false;
        }
        index := index + 1;
      }
      closed := index < |json|;
      index := index + 1;
    }

    /** A string literal; the decoded text when it is one. */
    method String() returns (thrown: Option<Failure>, key: Text)
      requires index < |json| && json[index] == QUOTE
      modifies this
      ensures Ended(ScanString(old(Rest())), thrown)
      ensures thrown.None? ==> Decode(ScanString(old(Rest())).tree) == Some(key)
    {
      ghost var t := Rest();
      var start := index;
      var closed := SkipString();
      if !closed {
        return Some(Malformed), [];
      }
      assert t[1..index - start - 1] == json[start + 1..index - 1];
      assert t[index - start..] == json[index..];
      match Decode(json[start + 1..index - 1]) {
        case None => thrown, key := Some(Unparsable), [];
        case Some(text) => thrown, key := None, text;
      }
    }

    /** The `whitespace(); value(); whitespace()` of an array, an object and the whole text. */
    method Item() returns (thrown: Option<Failure>)
      requires index <= |json|
      modifies this
      ensures Ended(ScanItem(old(Rest())), thrown)
      decreases |json| - index, 3
    {
      thrown := Value();
      if thrown.None? {
        Whitespace();
      }
    }

    /** `whitespace(); string()`, when a quote is there. */
    method Key() returns (thrown: Option<Failure>, key: Text)
      requires index <= |json|
      modifies this
      ensures Ended(ScanKey(old(Rest())), thrown)
      ensures thrown.None? ==> Decode(ScanKey(old(Rest())).tree.1) == Some(key)
    {
      Whitespace();
      if index == |json| || json[index] != QUOTE {
        return Some(Malformed), [];
      }
      thrown, key := String();
    }

    method Colon() returns (thrown: Option<Failure>)
      requires index <= |json|
      modifies this
      ensures Ended(ScanColon(old(Rest())), thrown)
    {
      ghost var r := Rest();
      Whitespace();
      if index == |json| || json[index] != COLON {
        return Some(Malformed);
      }
      index := index + 1;
      assert Rest() == r[Gap(r) + 1..];
      thrown := None;
    }

    /** The part of a round of the member loop up to the colon. */
    method NewName(keys: set<Text>) returns (thrown: Option<Failure>, key: Text)
      requires index <= |json|
      modifies this
      ensures Ended(ScanName(old(Rest()), keys), thrown)
      ensures thrown.None? ==> ScanName(old(Rest()), keys).tree.Decoded() == key
    {
      thrown, key := Key();
      if thrown.Some? {
        return;
      }
      if key in keys {
        return Some(Repeated(key)), [];
      }
      thrown := Colon();
    }

    method Value() returns (thrown: Option<Failure>)
      requires index <= |json|
      modifies this
      ensures Ended(ScanToken(old(Rest())[Gap(old(Rest()))..]), thrown)
      decreases |json| - index, 2
    {
      Whitespace();
      ghost var t := Rest();
      assert t == json[index..];
      if index == |json| {
        return Some(Malformed);
      }
      var token := json[index];
      assert token == t[0];
      if token == LBRACE {
        thrown := Object();
      } else if token == LBRACKET {
        thrown := Array();
      } else if token == QUOTE {
        var key: Text;
        thrown, key := String();
      } else {
        thrown := WordOrNumber();
      }
    }

    /** The three words and the number expression. */
    method WordOrNumber() returns (thrown: Option<Failure>)
      requires index < |json| && json[index] != LBRACE && json[index] != LBRACKET && json[index] != QUOTE
      modifies this
      ensures Ended(ScanToken(old(Rest())), thrown)
    {
      ghost var t := Rest();
      assert t == json[index..];
      if StartsWith(json[index..], TRUE) {
        index := index + 4;
        assert Rest() == t[4..];
        thrown := None;
      } else if StartsWith(json[index..], FALSE) {
        index := index + 5;
        assert Rest() == t[5..];
        thrown := None;
      } else if StartsWith(json[index..], NULL) {
        index := index + 4;
        assert Rest() == t[4..];
        thrown := None;
      } else {
        match NumberLength(json[index..]) {
          case None => thrown := Some(Malformed);
          case Some(n) =>
            index := index + n;
            assert Rest() == t[n..];
            thrown := None;
        }
      }
    }

    method Object() returns (thrown: Option<Failure>)
      requires index < |json| && json[index] == LBRACE
      modifies this
      ensures Ended(ScanObject(old(Rest())[1..]), thrown)
      decreases |json| - index, 1
    {
      index := index + 1;
      ghost var t := Rest();
      assert t == old(Rest())[1..];
      Whitespace();
      if index < |json| && json[index] == RBRACE {
        index := index + 1;
        assert Rest() == t[Gap(t) + 1..];
        return None;
      }
      MembersAfterGap(t);
      thrown := Members();
    }

    /** The member loop, from the first name. */
    method Members() returns (thrown: Option<Failure>)
      requires index <= |json|
      modifies this
      ensures Ended(ScanMembers(old(Rest()), {}), thrown)
      decreases |json| - index, 5
    {
      ghost var t := Rest();
      var keys: set<Text> := {};
      while index < |json|
        invariant old(index) <= index <= |json|
        invariant SameEnd(ScanMembers(Rest(), keys), ScanMembers(t, {}))
        decreases |json| - index
      {
        var closed: bool;
        thrown, closed, keys := MemberRound(keys);
        if thrown.Some? || closed {
          return;
        }
      }
      return Some(Malformed);
    }

    /** One round of the member loop; `closed` when it met the closing brace. */
    method MemberRound(keys: set<Text>) returns (thrown: Option<Failure>, closed: bool, keys': set<Text>)
      requires index < |json|
      modifies this
      ensures thrown.Some? || closed ==> Ended(ScanMembers(old(Rest()), keys), thrown)
      ensures thrown.None? && !closed ==>
                && old(index) < index <= |json|
                && SameEnd(ScanMembers(Rest(), keys'), ScanMembers(old(Rest()), keys))
      decreases |json| - index, 4
    {
      ghost var s := Rest();
      var key: Text;
      closed, keys' := false, keys;
      thrown, key := NewName(keys);
      if thrown.Some? {
        return;
      }
      keys' := keys + {key};
      thrown := Item();
      if thrown.Some? {
        return;
      }
      MembersRound(s, keys);
      if index < |json| && json[index] == RBRACE {
        index := index + 1;
        closed := true;
        return;
      }
      if index == |json| || json[index] != COMMA {
        thrown := Some(Malformed);
        return;
      }
      index := index + 1;
    }

    method Array() returns (thrown: Option<Failure>)
      requires index < |json| && json[index] == LBRACKET
      modifies this
      ensures Ended(ScanArray(old(Rest())[1..]), thrown)
      decreases |json| - index, 1
    {
      index := index + 1;
      ghost var t := Rest();
      assert t == old(Rest())[1..];
      Whitespace();
      if index < |json| && json[index] == RBRACKET {
        index := index + 1;
        assert Rest() == t[Gap(t) + 1..];
        return None;
      }
      ItemsAfterGap(t);
      thrown := Items();
    }

    /** The item loop, from the first value. */
    method Items() returns (thrown: Option<Failure>)
      requires index <= |json|
      modifies this
      ensures Ended(ScanItems(old(Rest())), thrown)
      decreases |json| - index, 5
    {
      ghost var t := Rest();
      while index < |json|
        invariant old(index) <= index <= |json|
        invariant SameEnd(ScanItems(Rest()), ScanItems(t))
        decreases |json| - index
      {
        var closed: bool;
        thrown, closed := ItemRound();
        if thrown.Some? || closed {
          return;
        }
      }
      NoItems();
      assert Rest() == [];
      return Some(Malformed);
    }

    method ItemRound() returns (thrown: Option<Failure>, closed: bool)
      requires index < |json|
      modifies this
      ensures thrown.Some? || closed ==> Ended(ScanItems(old(Rest())), thrown)
      ensures thrown.None? && !closed ==>
                && old(index) < index <= |json|
                && SameEnd(ScanItems(Rest()), ScanItems(old(Rest())))
      decreases |json| - index, 4
    {
      ghost var s := Rest();
      closed := false;
      thrown := Item();
      if thrown.Some? {
        return;
      }
      ItemsRound(s);
      thrown, closed := CloseOrComma(ScanItems(s), old(index));
    }

    /** Behind an item: the closing bracket ends the list, a comma leads to the next round. */
    method CloseOrComma(ghost all: Scan<Items>, ghost start: nat) returns (thrown: Option<Failure>, closed: bool)
      requires start <= index <= |json|
      requires if Next(Rest(), RBRACKET) then all.Done? && all.rest == Rest()[1..]
               else if Next(Rest(), COMMA) then SameEnd(ScanItems(Rest()[1..]), all)
               else all == Failed(Malformed)
      modifies this
      ensures thrown.Some? || closed ==> Ended(all, thrown)
      ensures thrown.None? && !closed ==> start < index <= |json| && SameEnd(ScanItems(Rest()), all)
    {
      thrown, closed := None, false;
      ghost var r := Rest();
      assert r != [] ==> r[0] == json[index] && r[1..] == json[index + 1..];
      if index < |json| && json[index] == RBRACKET {
        index := index + 1;
        closed := true;
        return;
      }
      if index == |json| || json[index] != COMMA {
        thrown := Some(Malformed);
        return;
      }
      index := index + 1;
    }
  }

  /** The whole check: `thrown` is `None` when the procedure returns normally. */
  method AssertNoDuplicateJsonKeys(json: Text) returns (thrown: Option<Failure>)
    ensures thrown == Check(json)
    ensures thrown.None? <==> exists doc :: IsJson(json, doc) && NoRepeat(doc.value)
  {
    AcceptsExactly(json);
    var scanner := new Scanner(json);
    assert scanner.Rest() == json;
    thrown := scanner.Item();
    if thrown.Some? {
      return;
    }
    if scanner.index != |json| {
      return Some(Malformed);
    }
  }
}
