/**
 * Party resolution (`_lookupParties`) and shared-key selection (`_getSharedKey`),
 * as specification functions. The loader's methods are proved against them.
 */
module Parties {
  import opened Wrappers
  import opened Encoding
  import opened TxRecords

  /** The `matches` object: `{}` is `Matches(None, None)`. */
  datatype Matches = Matches(from: Option<Identity>, to: Option<Identity>)

  /** JavaScript truthiness of an optional string: present and non-empty. */
  predicate Truthy(s: Option<string>) {
    s.Some? && s.value != ""
  }

  /** The settled value at one address: a falsy address is rejected without asking the lookup. */
  function Resolve(lookup: string -> Option<Identity>, addr: string): Option<Identity> {
    if addr == "" then None else lookup(addr)
  }

  function Results(lookup: string -> Option<Identity>, addrs: seq<string>): (rs: seq<Option<Identity>>)
    ensures |rs| == |addrs|
    ensures forall i :: 0 <= i < |addrs| ==> rs[i] == Resolve(lookup, addrs[i])
  {
    seq(|addrs|, i requires 0 <= i < |addrs| => Resolve(lookup, addrs[i]))
  }

  /** Position of the first resolved entry, or |rs| when none resolved. */
  function FirstResolvedAt(rs: seq<Option<Identity>>): (k: nat)
    ensures k <= |rs|
    ensures forall j :: 0 <= j < k ==> rs[j].None?
    ensures k < |rs| ==> rs[k].Some?
  {
    if rs == [] then 0
    else if rs[0].Some? then 0
    else 1 + FirstResolvedAt(rs[1..])
  }

  /** An entry that may serve as `to` for sender `from`: resolved, with a different public value. */
  predicate Counterpart(r: Option<Identity>, from: Identity) {
    r.Some? && r.value.key.value != from.key.value
  }

  /** Position of the first counterpart of `from`, or |rs| when there is none. */
  function FirstCounterpartAt(rs: seq<Option<Identity>>, from: Identity): (k: nat)
    ensures k <= |rs|
    ensures forall j :: 0 <= j < k ==> !Counterpart(rs[j], from)
    ensures k < |rs| ==> Counterpart(rs[k], from)
  {
    if rs == [] then 0
    else if Counterpart(rs[0], from) then 0
    else 1 + FirstCounterpartAt(rs[1..], from)
  }

  /** The matching over the settled results of `from.concat(to)`, `n` being `from.length`. */
  function Select(rs: seq<Option<Identity>>, n: nat): Option<Matches>
    requires n <= |rs|
  {
    var i := FirstResolvedAt(rs[..n]);
    if i == n then None
    else
      var f := rs[i].value;
      var back := rs[n..];
      var j := FirstCounterpartAt(back, f);
      Some(Matches(Some(f), if j < |back| then back[j] else None))
  }

  /** What `_lookupParties(from, to)` resolves with; `None` is `null`. */
  function Parties(lookup: Option<string -> Option<Identity>>, from: seq<string>, to: seq<string>): Option<Matches> {
    match lookup
    case None => Some(Matches(None, None))
    case Some(fn) => Select(Results(fn, from + to), |from|)
  }

  /** Without a lookup function the call resolves with the empty match, never `null`. */
  lemma NoLookupGivesEmptyMatch(from: seq<string>, to: seq<string>)
    ensures Parties(None, from, to) == Some(Matches(None, None))
  {
  }

  /**
   * With a lookup function: `null` exactly when no sender address resolves; otherwise `from`
   * is the first resolved sender, and `to` the first resolved receiver whose public value
   * differs from the sender's, or absent when no receiver qualifies.
   */
  lemma {:induction false} PartySelection(lookup: string -> Option<Identity>, from: seq<string>, to: seq<string>)
    ensures var m := Parties(Some(lookup), from, to);
      && (m.None? <==> forall i :: 0 <= i < |from| ==> Resolve(lookup, from[i]).None?)
      && (m.Some? ==>
            exists i :: 0 <= i < |from| && Resolve(lookup, from[i]) == m.value.from && m.value.from.Some?
              && forall j :: 0 <= j < i ==> Resolve(lookup, from[j]).None?)
      && (m.Some? && m.value.to.Some? ==>
            exists i :: 0 <= i < |to| && Resolve(lookup, to[i]) == m.value.to
              && Counterpart(m.value.to, m.value.from.value)
              && forall j :: 0 <= j < i ==> !Counterpart(Resolve(lookup, to[j]), m.value.from.value))
      && (m.Some? && m.value.to.None? ==>
            forall i :: 0 <= i < |to| ==> !Counterpart(Resolve(lookup, to[i]), m.value.from.value))
  {
    var all := from + to;
    var rs := Results(lookup, all);
    var n := |from|;
    assert forall i :: 0 <= i < n ==> rs[..n][i] == Resolve(lookup, from[i]);
    assert forall i :: 0 <= i < |to| ==> rs[n..][i] == Resolve(lookup, to[i]);
    var i := FirstResolvedAt(rs[..n]);
    if i < n {
      var f := rs[i].value;
      var j := FirstCounterpartAt(rs[n..], f);
      assert Resolve(lookup, from[i]) == Some(f);
      if j < |to| {
        assert Resolve(lookup, to[j]) == rs[n..][j];
      }
    }
  }

  /** A receiver is only ever chosen together with a sender. */
  lemma ToNeedsFrom(lookup: Option<string -> Option<Identity>>, from: seq<string>, to: seq<string>)
    requires Parties(lookup, from, to).Some?
    ensures Parties(lookup, from, to).value.to.Some? ==> Parties(lookup, from, to).value.from.Some?
  {
  }

  /**
   * `_getSharedKey`: nothing without both parties; the sender's private half with the
   * receiver's public value, or, when the sender has no private half, the receiver's
   * private half with the sender's public value; a key only when both chosen halves are there.
   */
  function SharedKey(ext: Externals, from: Option<Identity>, to: Option<Identity>): (k: Option<Bytes>)
    ensures from.None? || to.None? ==> k.None?
    ensures from.Some? && to.Some? && Truthy(from.value.key.priv) ==>
      k == if Truthy(to.value.key.value)
           then Some(ext.sharedEncryptionKey(from.value.key.priv.value, to.value.key.value.value))
           else None
    ensures from.Some? && to.Some? && !Truthy(from.value.key.priv) ==>
      k == if Truthy(to.value.key.priv) && Truthy(from.value.key.value)
           then Some(ext.sharedEncryptionKey(to.value.key.priv.value, from.value.key.value.value))
           else None
  {
    if from.None? || to.None? then None
    else
      var fromKey, toKey := from.value.key, to.value.key;
      var priv := if Truthy(fromKey.priv) then fromKey.priv else toKey.priv;
      var pub := if Truthy(fromKey.priv) then toKey.value else fromKey.value;
      if Truthy(priv) && Truthy(pub) then Some(ext.sharedEncryptionKey(priv.value, pub.value)) else None
  }

  /**
   * When exactly one party holds its private half, the shared key does not depend on which
   * of the two is the sender.
   */
  lemma SharedKeySymmetric(ext: Externals, a: Identity, b: Identity)
    requires Truthy(a.key.priv) && !Truthy(b.key.priv)
    ensures SharedKey(ext, Some(a), Some(b)) == SharedKey(ext, Some(b), Some(a))
    ensures SharedKey(ext, Some(a), Some(b)).Some? <==> Truthy(b.key.value)
  {
  }

  /** A shared key exists exactly when one of the two orderings supplies both halves, the sender's first. */
  lemma SharedKeyExists(ext: Externals, from: Identity, to: Identity)
    ensures SharedKey(ext, Some(from), Some(to)).Some? <==>
      (Truthy(from.key.priv) && Truthy(to.key.value)) ||
      (!Truthy(from.key.priv) && Truthy(to.key.priv) && Truthy(from.key.value))
  {
  }
}
