/**
 The session object with its scope-keyed token list, as src/proto_auth.c keeps it: a singly linked
 list edited in place, refining a map from scope to bearer.
 */
module TokenCache {
  import opened Options
  import opened Wire

  // ---------------------------------------------------- lists as values

  datatype Item = Item(key: string, bearer: Bearer)

  predicate Distinct(items: seq<Item>) {
    forall i, j :: 0 <= i < j < |items| ==> items[i].key != items[j].key
  }

  /** The map a list of items stands for. */
  function AsMap(items: seq<Item>): map<string, Bearer> {
    if |items| == 0 then map[] else AsMap(items[1..])[items[0].key := items[0].bearer]
  }

  lemma {:induction false} AsMapKeys(items: seq<Item>, key: string)
    ensures key in AsMap(items) <==> exists i :: 0 <= i < |items| && items[i].key == key
  {
    if |items| > 0 {
      AsMapKeys(items[1..], key);
      if key in AsMap(items[1..]) {
        var i :| 0 <= i < |items[1..]| && items[1..][i].key == key;
        assert items[i + 1].key == key;
      }
      if i :| 0 <= i < |items| && items[i].key == key && i > 0 {
        assert items[1..][i - 1].key == key;
      }
    }
  }

  lemma {:induction false} AsMapAt(items: seq<Item>, i: nat)
    requires Distinct(items) && i < |items|
    ensures items[i].key in AsMap(items) && AsMap(items)[items[i].key] == items[i].bearer
  {
    if i > 0 {
      assert items[1..][i - 1] == items[i];
      AsMapAt(items[1..], i - 1);
    }
  }

  lemma {:induction false} AsMapReplace(items: seq<Item>, i: nat, b: Bearer)
    requires Distinct(items) && i < |items|
    ensures AsMap(items[i := Item(items[i].key, b)]) == AsMap(items)[items[i].key := b]
  {
    var after := items[i := Item(items[i].key, b)];
    if i == 0 {
      assert after[1..] == items[1..];
    } else {
      assert items[1..][i - 1] == items[i];
      assert after[1..] == items[1..][i - 1 := Item(items[i].key, b)];
      AsMapReplace(items[1..], i - 1, b);
      assert items[0].key != items[i].key;
    }
  }

  lemma {:induction false} AsMapRemove(items: seq<Item>, i: nat)
    requires Distinct(items) && i < |items|
    ensures AsMap(items[..i] + items[i + 1..]) == AsMap(items) - {items[i].key}
  {
    var after := items[..i] + items[i + 1..];
    if i == 0 {
      assert after == items[1..];
      AsMapKeys(items[1..], items[0].key);
      assert AsMap(items[1..]) == AsMap(items) - {items[0].key};
    } else {
      assert items[1..][i - 1] == items[i];
      assert after[1..] == items[1..][..i - 1] + items[1..][i..];
      AsMapRemove(items[1..], i - 1);
      assert items[0].key != items[i].key;
      assert AsMap(items) - {items[i].key}
          == (AsMap(items[1..]) - {items[i].key})[items[0].key := items[0].bearer];
    }
  }

  lemma DistinctRemove(items: seq<Item>, i: nat)
    requires Distinct(items) && i < |items|
    ensures Distinct(items[..i] + items[i + 1..])
  {
  }

  // --------------------------------------------------- lists as objects

  class TokenEntry {
    const scope: string
    var token: string
    var exp: int
    var next: TokenEntry?

    constructor (scope: string, token: string, exp: int, next: TokenEntry?)
      ensures this.scope == scope && this.token == token && this.exp == exp && this.next == next
    {
      this.scope, this.token, this.exp, this.next := scope, token, exp, next;
    }

    ghost function AsItem(): Item
      reads this
    {
      Item(scope, Bearer(token, exp))
    }
  }

  class Auth {
    var passphrase: Option<string>
    var retain: bool
    var mobile: bool
    var cache: TokenEntry?
    ghost var spine: seq<TokenEntry>

    /** The list is the spine: linked in order, ended by null, one entry per scope. */
    ghost predicate Valid()
      reads this, spine
    {
      && cache == (if spine == [] then null else spine[0])
      && (forall i {:trigger spine[i].next} :: 0 <= i < |spine| ==>
            spine[i].next == if i + 1 < |spine| then spine[i + 1] else null)
      && Distinct(Items())
    }

    ghost function Items(): (items: seq<Item>)
      reads this, spine
      ensures |items| == |spine|
      ensures forall i :: 0 <= i < |spine| ==> items[i] == spine[i].AsItem()
    {
      seq(|spine|, i requires 0 <= i < |spine| reads this, spine => spine[i].AsItem())
    }

    ghost function Contents(): map<string, Bearer>
      reads this, spine
    {
      AsMap(Items())
    }

    constructor ()
      ensures Valid() && spine == [] && Contents() == map[]
      ensures passphrase == None && !retain && !mobile
    {
      passphrase, retain, mobile, cache := None, false, false, null;
      spine := [];
    }

    /** First match from the head. */
    method Find(scope: string) returns (e: TokenEntry?, ghost at: nat)
      requires Valid()
      ensures e == null <==> scope !in Contents()
      ensures e != null ==>
                && at < |spine| && e == spine[at] && e.scope == scope
                && Contents()[scope] == Bearer(e.token, e.exp)
    {
      e, at := cache, 0;
      while e != null
        invariant at <= |spine| && e == (if at < |spine| then spine[at] else null)
        invariant forall i :: 0 <= i < at ==> Items()[i].key != scope
        decreases |spine| - at
      {
        if e.scope == scope {
          AsMapAt(Items(), at);
          return;
        }
        e, at := e.next, at + 1;
      }
      AsMapKeys(Items(), scope);
    }

    /** Overwrite the entry at `at`. */
    method Replace(e: TokenEntry, ghost at: nat, token: string, exp: int)
      requires Valid() && at < |spine| && e == spine[at]
      modifies e
      ensures Valid() && spine == old(spine)
      ensures Contents() == old(Contents())[e.scope := Bearer(token, exp)]
    {
      AsMapReplace(Items(), at, Bearer(token, exp));
      ghost var before := Items();
      forall i | 0 <= i < |spine| && i != at
        ensures spine[i] != e
      {
        assert before[i].key != before[at].key;
      }
      e.token := token;
      e.exp := exp;
      assert Items() == before[at := Item(e.scope, Bearer(token, exp))];
    }

    /** A new head entry for a scope the list does not have. */
    method Prepend(scope: string, token: string, exp: int)
      requires Valid() && scope !in Contents()
      modifies this
      ensures Valid() && |spine| > 0 && fresh(spine[0]) && spine[1..] == old(spine)
      ensures Contents() == old(Contents())[scope := Bearer(token, exp)]
      ensures passphrase == old(passphrase) && retain == old(retain) && mobile == old(mobile)
    {
      ghost var before, was := Items(), spine;
      forall i | 0 <= i < |before|
        ensures before[i].key != scope
      {
        AsMapAt(before, i);
      }
      cache := new TokenEntry(scope, token, exp, cache);
      spine := [cache] + spine;
      assert spine[1..] == was;
      assert Items() == [Item(scope, Bearer(token, exp))] + before;
      assert Items()[1..] == before;
    }

    /** Insert at the head, or replace in place. */
    method Put(scope: string, token: string, exp: int)
      requires Valid()
      modifies this, spine
      ensures Valid() && forall e :: e in spine ==> e in old(spine) || fresh(e)
      ensures Contents() == old(Contents())[scope := Bearer(token, exp)]
      ensures passphrase == old(passphrase) && retain == old(retain) && mobile == old(mobile)
    {
      var e, at := Find(scope);
      if e != null {
        Replace(e, at, token, exp);
      } else {
        Prepend(scope, token, exp);
        assert spine == [spine[0]] + spine[1..];
      }
    }

    /** Drop everything. */
    method Clear()
      requires Valid()
      modifies this
      ensures Valid() && spine == [] && Contents() == map[]
      ensures passphrase == old(passphrase) && retain == old(retain) && mobile == old(mobile)
    {
      cache := null;
      spine := [];
    }

    /** Unlink the first match; with one entry per scope that is the only one. */
    method Remove(scope: string)
      requires Valid()
      modifies this, spine
      ensures Valid() && forall e :: e in spine ==> e in old(spine)
      ensures Contents() == old(Contents()) - {scope}
      ensures passphrase == old(passphrase) && retain == old(retain) && mobile == old(mobile)
    {
      var prev: TokenEntry? := null;
      var e := cache;
      ghost var at := 0;
      while e != null
        invariant at <= |spine| && e == (if at < |spine| then spine[at] else null)
        invariant if at == 0 then prev == null else prev == spine[at - 1]
        invariant forall i :: 0 <= i < at ==> Items()[i].key != scope
        decreases |spine| - at
      {
        if e.scope == scope {
          Unlink(prev, e, at);
          return;
        }
        prev, e, at := e, e.next, at + 1;
      }
      AsMapKeys(Items(), scope);
      assert Contents() - {scope} == Contents();
    }

    /** No other entry is the one before `at`: their scopes differ. */
    lemma NoOther(prev: TokenEntry?, at: nat)
      requires Valid() && at < |spine| && if at == 0 then prev == null else prev == spine[at - 1]
      ensures forall i :: 0 <= i < |spine| && i != at - 1 ==> spine[i] != prev
    {
      hide AsMap;
      forall i | 0 <= i < |spine| && i != at - 1
        ensures spine[i] != prev
      {
        assert at > 0 ==> Items()[i].key != Items()[at - 1].key;
      }
    }

    /** Take entry `at` out of the list. */
    method Unlink(prev: TokenEntry?, e: TokenEntry, ghost at: nat)
      requires Valid() && at < |spine| && e == spine[at]
      requires if at == 0 then prev == null else prev == spine[at - 1]
      modifies this, prev
      ensures Valid() && spine == old(spine[..at] + spine[at + 1..])
      ensures Contents() == old(Contents()) - {e.scope}
      ensures passphrase == old(passphrase) && retain == old(retain) && mobile == old(mobile)
    {
      hide AsMap;
      ghost var before, was := Items(), spine;
      AsMapRemove(before, at);
      DistinctRemove(before, at);
      NoOther(prev, at);
      if prev == null {
        cache := e.next;
      } else {
        prev.next := e.next;
      }
      spine := was[..at] + was[at + 1..];
      forall k | 0 <= k < |spine|
        ensures spine[k].next == if k + 1 < |spine| then spine[k + 1] else null
      {
        if k + 1 < at {
          assert spine[k] == was[k] && spine[k + 1] == was[k + 1];
        } else if k + 1 == at {
          assert spine[k] == prev && (at < |spine| ==> spine[at] == was[at + 1]);
        } else {
          assert spine[k] == was[k + 1] && (k + 1 < |spine| ==> spine[k + 1] == was[k + 2]);
        }
      }
      assert Items() == before[..at] + before[at + 1..];
    }
  }
}
