/** Player-id resolution, `TokebiSDK.prototype.getOrCreatePlayerId`: read
    the id kept in the browser's `localStorage`, or make one up from the
    clock and a random number and keep it there. */
module Identity {
  import opened Decimal

  datatype Option<T> = None | Some(value: T)

  /** The fixed `localStorage` key. */
  const PlayerIdKey: string := "tokebi_player_id"

  /** The browser's `localStorage`: string keys to string values. A
      missing store (`typeof localStorage === 'undefined'`) is `null`. */
  class Store {
    var items: map<string, string>

    constructor (items: map<string, string>)
      ensures this.items == items
    {
      this.items := items;
    }
  }

  /** `'player_' + Math.floor(Date.now() / 1000) + '_' + random`, with the
      clock reading `nowMs` in milliseconds and `rand` the random draw. */
  function GeneratedId(nowMs: nat, rand: nat): string {
    "player_" + NatStr(nowMs / 1000) + "_" + NatStr(rand)
  }

  /** The specification of one resolution: the id returned and the store
      afterwards. A stored value counts only when it is truthy, so a
      missing key and an empty string both make a new id, which is saved
      when there is a store to save it in. */
  function Resolve(store: Option<map<string, string>>, nowMs: nat, rand: nat): (r: (string, Option<map<string, string>>))
  {
    match store
    case None => (GeneratedId(nowMs, rand), None)
    case Some(items) =>
      if PlayerIdKey in items && items[PlayerIdKey] != "" then (items[PlayerIdKey], store)
      else (GeneratedId(nowMs, rand), Some(items[PlayerIdKey := GeneratedId(nowMs, rand)]))
  }

  /** `getOrCreatePlayerId` as the source runs it. */
  method GetOrCreatePlayerId(storage: Store?, nowMs: nat, rand: nat) returns (playerId: string)
    modifies storage
    ensures storage == null ==> (playerId, None) == Resolve(None, nowMs, rand)
    ensures storage != null ==> (playerId, Some(storage.items)) == Resolve(Some(old(storage.items)), nowMs, rand)
  {
    // `localStorage.getItem` answers null for a missing key
    var stored: Option<string> := None;
    if storage != null {
      stored := if PlayerIdKey in storage.items then Some(storage.items[PlayerIdKey]) else None;
    }
    if stored.None? || stored.value == "" {
      playerId := "player_" + NatStr(nowMs / 1000) + "_" + NatStr(rand);
      if storage != null {
        storage.items := storage.items[PlayerIdKey := playerId];
      }
    } else {
      playerId := stored.value;
    }
  }

  /** Every resolved id is non-empty, and a present store always ends up
      holding exactly the id that was returned. */
  lemma ResolveStores(store: Option<map<string, string>>, nowMs: nat, rand: nat)
    ensures Resolve(store, nowMs, rand).0 != ""
    ensures store.Some? <==> Resolve(store, nowMs, rand).1.Some?
    ensures store.Some? ==>
              && PlayerIdKey in Resolve(store, nowMs, rand).1.value
              && Resolve(store, nowMs, rand).1.value[PlayerIdKey] == Resolve(store, nowMs, rand).0
  {
    assert GeneratedId(nowMs, rand)[0] == 'p';
  }

  /** Resolving again against the store a resolution left behind returns
      the same id and writes nothing, whatever the clock and the random
      draw are the second time. */
  lemma ResolveTwice(items: map<string, string>, nowMs: nat, rand: nat, nowMs': nat, rand': nat)
    ensures var (id, after) := Resolve(Some(items), nowMs, rand);
            Resolve(after, nowMs', rand') == (id, after)
  {
    ResolveStores(Some(items), nowMs, rand);
  }

  /** In `a + "_" + b` with `a` all digits, the first `_` is right after `a`. */
  lemma FirstSeparator(a: string, b: string)
    requires AllDigits(a)
    ensures (a + "_" + b)[|a|] == '_'
    ensures forall i :: 0 <= i < |a| ==> (a + "_" + b)[i] != '_'
  {
  }

  /** Two generated ids are equal exactly when they were made in the same
      second from the same random draw. */
  lemma GeneratedIdInjective(nowMs: nat, rand: nat, nowMs': nat, rand': nat)
    ensures GeneratedId(nowMs, rand) == GeneratedId(nowMs', rand') <==>
              nowMs / 1000 == nowMs' / 1000 && rand == rand'
  {
    var a, b := NatStr(nowMs / 1000), NatStr(rand);
    var a', b' := NatStr(nowMs' / 1000), NatStr(rand');
    var s, s' := GeneratedId(nowMs, rand), GeneratedId(nowMs', rand');
    if s == s' {
      var t, t' := a + "_" + b, a' + "_" + b';
      assert t == s[7..] && t' == s'[7..];
      FirstSeparator(a, b);
      FirstSeparator(a', b');
      assert |a| == |a'|;
      assert a == t[..|a|] && a' == t'[..|a'|];
      assert b == t[|a| + 1..] && b' == t'[|a'| + 1..];
      NatStrInjective(nowMs / 1000, nowMs' / 1000);
      NatStrInjective(rand, rand');
    }
  }

  /** Without a store nothing is kept: each resolution makes a new id, and
      two made in different seconds or from different draws differ. */
  lemma UnstoredIdsDiffer(nowMs: nat, rand: nat, nowMs': nat, rand': nat)
    requires nowMs / 1000 != nowMs' / 1000 || rand != rand'
    ensures Resolve(None, nowMs, rand).0 != Resolve(None, nowMs', rand').0
    ensures Resolve(None, nowMs, rand).1 == None
  {
    GeneratedIdInjective(nowMs, rand, nowMs', rand');
  }
}
