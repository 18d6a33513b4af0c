/** The MongoDB relay store: the guarded resume-token save and the lock document. */
module TokenStores {
  import opened Prelude
  import opened TokenKeys
  import opened Leases

  /** The zero time, year 1, in Unix seconds. */
  const ZERO_TIME: int := -62135596800

  /** A group's stored position. Rows this store did not write can lack the ordering fields. */
  datatype TokenRow<T> = TokenRow(token: T, key: Option<string>, time: Option<int>)

  /** The filter under which a stored row gives way to an incoming (key, time). */
  predicate GivesWay<T>(row: TokenRow<T>, key: Option<string>, time: int) {
    if key.Some? then
      || (row.key.Some? && TextLe(row.key.value, key.value))
      || (row.key.None? && row.time.Some? && row.time.value <= time)
      || (row.key.None? && row.time.None?)
    else
      row.time.None? || row.time.value <= time
  }

  /** The upsert: a stored row that does not give way turns the insert into a duplicate key. */
  function Saved<T>(row: Option<TokenRow<T>>, token: T, key: Option<string>, time: int): (Option<TokenRow<T>>, bool) {
    if row.None? || GivesWay(row.value, key, time)
    then (Some(TokenRow(token, key, Some(time))), true)
    else (row, false)
  }

  /** The stored commit time, as it decodes. */
  function TimeOf<T>(row: Option<TokenRow<T>>): int {
    if row.Some? && row.value.time.Some? then row.value.time.value else ZERO_TIME
  }

  class RelayStore {
    const payload: string -> Option<string>   // the token document's _data
    const serverNow: nat -> int               // $$NOW of the k-th lock statement
    var offsets: map<string, TokenRow<string>>
    var locks: map<string, LockDoc>
    var ballots: nat

    constructor (payload: string -> Option<string>, serverNow: nat -> int)
      ensures offsets == map[] && locks == map[]
      ensures this.payload == payload && this.serverNow == serverNow
    {
      this.payload, this.serverNow := payload, serverNow;
      offsets, locks, ballots := map[], map[], 0;
    }

    function Row(name: string): Option<TokenRow<string>>
      reads this
    {
      if name in offsets then Some(offsets[name]) else None
    }

    function LockOf(name: string): Option<LockDoc>
      reads this
    {
      if name in locks then Some(locks[name]) else None
    }

    /** A missing row is no token; a missing row or field is the zero time. */
    method LoadToken(name: string) returns (token: string, time: int)
      ensures token == if Row(name).Some? then Row(name).value.token else ""
      ensures time == TimeOf(Row(name))
    {
      token, time := "", ZERO_TIME;
      if name in offsets {
        token := offsets[name].token;
        if offsets[name].time.Some? {
          time := offsets[name].time.value;
        }
      }
    }

    /** An empty token is refused; any other is saved unless the stored row is newer. */
    method SaveToken(name: string, token: string, time: int) returns (r: Result<bool>)
      modifies this`offsets
      ensures r.Err? <==> token == ""
      ensures r.Err? ==> offsets == old(offsets)
      ensures r.Ok? ==> (Row(name), r.value) == Saved(old(Row(name)), token, KeyOf(payload(token)), time)
      ensures forall other :: other != name ==> Row(other) == old(Row(other))
    {
      if token == "" {
        return Err;
      }
      var key := TokenKey(payload(token));
      var row := TokenRow(token, key, Some(time));
      if name !in offsets {
        offsets := offsets[name := row];
        return Ok(true);
      }
      var stored := offsets[name];
      var matches: bool;
      if key.Some? {
        matches := (stored.key.Some? && TextLe(stored.key.value, key.value))
                   || (stored.key.None? && stored.time.Some? && stored.time.value <= time)
                   || (stored.key.None? && stored.time.None?);
      } else {
        matches := (stored.time.Some? && stored.time.value <= time) || stored.time.None?;
      }
      if !matches {
        return Ok(false);
      }
      offsets := offsets[name := row];
      return Ok(true);
    }

    /** The conditional pipeline, and who the document names after it. */
    method TryAcquireLeaderLock(name: string, holder: nat, ttlMillis: int) returns (held: bool)
      requires Whole(LockOf(name))
      modifies this`locks, this`ballots
      ensures ballots == old(ballots) + 1
      ensures LockOf(name) == Some(Pipeline(old(LockOf(name)), holder, serverNow(old(ballots)), ttlMillis))
      ensures serverNow(old(ballots)) > EPOCH ==>
                var was := LeaseOf(old(LockOf(name)));
                var now := serverNow(old(ballots));
                && Whole(LockOf(name))
                && LeaseOf(LockOf(name)) == Elect(was, holder, now, now + Max(ttlMillis, 1))
                && (held <==> HeldBy(LeaseOf(LockOf(name)), holder))
      ensures forall other :: other != name ==> LockOf(other) == old(LockOf(other))
    {
      var now := serverNow(ballots);
      PipelineIsElect(LockOf(name), holder, now, ttlMillis);
      ballots := ballots + 1;
      var stored := LockOf(name);
      var doc := if stored.Some? then stored.value else LockDoc(None, None);
      var expire := if doc.expire.Some? then doc.expire.value else EPOCH;
      var canTake := doc.holder == Some(holder) || expire < now;
      var millis := Max(ttlMillis, 1);
      var after := LockDoc(if canTake then Some(holder) else doc.holder,
                           if canTake then Some(now + millis) else doc.expire);
      locks := locks[name := after];
      held := after.holder == Some(holder);
    }

    method ReleaseLeaderLock(name: string, holder: nat)
      requires Whole(LockOf(name))
      modifies this`locks
      ensures Whole(LockOf(name)) && LeaseOf(LockOf(name)) == Dropped(LeaseOf(old(LockOf(name))), holder)
      ensures forall other :: other != name ==> LockOf(other) == old(LockOf(other))
    {
      if name in locks && locks[name].holder == Some(holder) {
        locks := locks - {name};
      }
    }
  }

  // ----- a run of saves

  /**
    A save is refused exactly when it is strictly behind: by key where both are keyed, by commit time
    otherwise. So the position saved last can be saved again, and an equal time lets a token advance.
   */
  lemma RefusedExactlyWhenBehind<T>(row: TokenRow<T>, token: T, key: Option<string>, time: int)
    ensures var (after, persisted) := Saved(Some(row), token, key, time);
            && (!persisted <==>
                  if row.key.Some? && key.Some? then TextLe(key.value, row.key.value) && key != row.key
                  else row.time.Some? && time < row.time.value)
            && after == Some(if persisted then TokenRow(token, key, Some(time)) else row)
  {
    if row.key.Some? && key.Some? {
      TextLeTotal(row.key.value, key.value);
      if TextLe(row.key.value, key.value) && TextLe(key.value, row.key.value) {
        TextLeAntisymmetric(row.key.value, key.value);
      }
    }
  }

  datatype Save<T> = Save(token: T, key: Option<string>, time: int)

  function RowAfter<T>(saves: seq<Save<T>>): Option<TokenRow<T>> {
    if saves == [] then None
    else
      var last := saves[|saves| - 1];
      Saved(RowAfter(saves[..|saves| - 1]), last.token, last.key, last.time).0
  }

  function Persisted<T>(saves: seq<Save<T>>): bool
    requires saves != []
  {
    var last := saves[|saves| - 1];
    Saved(RowAfter(saves[..|saves| - 1]), last.token, last.key, last.time).1
  }

  ghost predicate AllKeyed<T>(saves: seq<Save<T>>) {
    forall k :: 0 <= k < |saves| ==> saves[k].key.Some?
  }

  /** `key` is the greatest of the saves' keys, and one of them. */
  ghost predicate Greatest<T>(saves: seq<Save<T>>, key: string) {
    && (exists k :: 0 <= k < |saves| && saves[k].key == Some(key))
    && forall k :: 0 <= k < |saves| && saves[k].key.Some? ==> TextLe(saves[k].key.value, key)
  }

  /** Keyed saves keep the greatest key, and a save persists exactly when it is the greatest so far. */
  lemma {:induction false} KeyedSavesKeepTheGreatest<T>(saves: seq<Save<T>>)
    requires saves != [] && AllKeyed(saves)
    ensures RowAfter(saves).Some? && RowAfter(saves).value.key.Some?
    ensures Greatest(saves, RowAfter(saves).value.key.value)
    ensures Persisted(saves) <==> Greatest(saves, saves[|saves| - 1].key.value)
  {
    var init, last := saves[..|saves| - 1], saves[|saves| - 1];
    TextLeTotal(last.key.value, last.key.value);
    if init == [] {
      assert saves[0].key == Some(last.key.value);
    } else {
      KeyedSavesKeepTheGreatest(init);
      var top := RowAfter(init).value.key.value;
      var j :| 0 <= j < |init| && init[j].key == Some(top);
      assert saves[j].key == Some(top);
      TextLeTotal(top, last.key.value);
      forall k | 0 <= k < |saves|
        ensures TextLe(top, last.key.value) ==> TextLe(saves[k].key.value, last.key.value)
        ensures k < |init| ==> TextLe(saves[k].key.value, top)
      {
        if k < |init| {
          assert saves[k] == init[k];
          if TextLe(top, last.key.value) {
            TextLeTransitive(saves[k].key.value, top, last.key.value);
          }
        }
      }
      assert saves[|saves| - 1].key == Some(last.key.value);
    }
  }

  /** Commit times follow the key order among keyed saves. */
  ghost predicate TimesFollowKeys<T>(saves: seq<Save<T>>) {
    forall j, k ::
      (&& 0 <= j < |saves| && 0 <= k < |saves| && saves[j].key.Some? && saves[k].key.Some?
       && TextLe(saves[j].key.value, saves[k].key.value)) ==> saves[j].time <= saves[k].time
  }

  lemma {:induction false} RowComesFromASave<T>(saves: seq<Save<T>>)
    requires saves != []
    ensures RowAfter(saves).Some?
    ensures exists k :: 0 <= k < |saves|
                        && RowAfter(saves).value == TokenRow(saves[k].token, saves[k].key, Some(saves[k].time))
  {
    var init, last := saves[..|saves| - 1], saves[|saves| - 1];
    if init != [] && !Persisted(saves) {
      RowComesFromASave(init);
      var k :| 0 <= k < |init| && RowAfter(init).value == TokenRow(init[k].token, init[k].key, Some(init[k].time));
      assert saves[k] == init[k];
    } else {
      assert RowAfter(saves).value == TokenRow(last.token, last.key, Some(last.time));
    }
  }

  /** Keyed and opaque saves mixed in any order never take the stored time back. */
  lemma StoredTimeNeverFalls<T>(saves: seq<Save<T>>, next: Save<T>)
    requires saves != [] && TimesFollowKeys(saves + [next])
    ensures RowAfter(saves).Some? && RowAfter(saves).value.time.Some?
    ensures RowAfter(saves + [next]).Some? && RowAfter(saves + [next]).value.time.Some?
    ensures RowAfter(saves).value.time.value <= RowAfter(saves + [next]).value.time.value
  {
    var all := saves + [next];
    assert all[..|all| - 1] == saves;
    RowComesFromASave(saves);
    var k :| 0 <= k < |saves| && RowAfter(saves).value == TokenRow(saves[k].token, saves[k].key, Some(saves[k].time));
    assert all[k] == saves[k] && all[|saves|] == next;
  }
}
