/**
 * The SOS session store: one record saying whether an alert is active, when it was
 * raised, by whom and where, kept in memory, mirrored into `localStorage` and
 * synchronised across tabs (storage events) and within a tab (`sosStateChange`
 * events). The current time is a parameter.
 */
module SosContext {
  import opened Wrappers
  import opened Json
  import opened Storage

  const SosStorageKey: string := "pfa_sos_state"

  /** The session record. `isActive` and `activatedAt` are read with JavaScript
      truthiness; `initiator` and `location` are opaque objects. */
  datatype SosState = SosState(
    isActive: bool,
    activatedAt: Option<int>,
    initiator: Option<JsonObject>,
    location: Option<JsonObject>)

  /** The all-null inactive record: the initial state and what deactivation leaves. */
  const Inactive: SosState := SosState(false, None, None, None)

  /** `activatedAt` is truthy: present and not 0. */
  predicate HasTimestamp(s: SosState) {
    s.activatedAt.Some? && s.activatedAt.value != 0
  }

  /** `isActive && activatedAt`: the test both the load and the elapsed-time query use. */
  predicate IsLive(s: SosState) {
    s.isActive && HasTimestamp(s)
  }

  /** The invariant the session record is meant to keep: an active record has a
      timestamp, an inactive one carries no detail. */
  predicate WellFormed(s: SosState) {
    && (s.isActive ==> s.activatedAt.Some?)
    && (!s.isActive ==> s == Inactive)
  }

  /** The record `activateSOS` builds at time `now`. */
  function Activated(now: int, initiator: Option<JsonObject>, location: Option<JsonObject>): (r: SosState)
    ensures r.isActive && r.activatedAt == Some(now)
    ensures r.initiator == initiator && r.location == location
  {
    SosState(true, Some(now), initiator, location)
  }

  /** What the mount-time load does with the stored string: a record to adopt, if any,
      and whether the key is removed. */
  datatype LoadOutcome = LoadOutcome(adopted: Option<SosState>, removeKey: bool)

  /** The mount-time load: nothing stored (or "") leaves everything as it is; an
      unparsable value or a record that is not live is removed; only a live record is
      adopted. */
  function LoadFrom(stored: Option<string>, codec: Codec<SosState>): (r: LoadOutcome)
    ensures r.adopted.Some? ==> stored.Some? && IsLive(r.adopted.value) && codec.parse(stored.value) == r.adopted
    ensures IsPresent(stored) && codec.parse(stored.value).Some? && IsLive(codec.parse(stored.value).value) ==>
      r.adopted == codec.parse(stored.value)
    ensures r.adopted.Some? ==> !r.removeKey
    ensures r.removeKey <==> IsPresent(stored) && r.adopted.None?
    ensures !IsPresent(stored) ==> r == LoadOutcome(None, false)
  {
    if !IsPresent(stored) then LoadOutcome(None, false)
    else match codec.parse(stored.value)
      case None => LoadOutcome(None, true)
      case Some(parsed) =>
        if IsLive(parsed) then LoadOutcome(Some(parsed), false) else LoadOutcome(None, true)
  }

  /** The `storage` event handler: another key is ignored; a present new value is
      adopted as parsed (without the liveness check of the load), or ignored when it
      does not parse; a null or empty new value resets to `Inactive`. */
  function OnStorageEvent(current: SosState, key: string, newValue: Option<string>,
                          codec: Codec<SosState>): (r: SosState)
    ensures key != SosStorageKey ==> r == current
    ensures key == SosStorageKey && !IsPresent(newValue) ==> r == Inactive
    ensures key == SosStorageKey && IsPresent(newValue) ==>
      r == codec.parse(newValue.value).GetOr(current)
  {
    if key != SosStorageKey then current
    else if IsPresent(newValue) then codec.parse(newValue.value).GetOr(current)
    else Inactive
  }

  /** `getElapsedTime`: whole seconds since activation, rounded down (`Math.floor`), and 0
      unless the record is live. */
  function ElapsedSeconds(s: SosState, now: int): (r: int)
    ensures !IsLive(s) ==> r == 0
    ensures IsLive(s) ==> r * 1000 <= now - s.activatedAt.value < r * 1000 + 1000
  {
    if !s.isActive || !HasTimestamp(s) then 0 else (now - s.activatedAt.value) / 1000
  }

  /** The provider: the in-memory record and the storage it mirrors it into. */
  class SosProvider {
    var state: SosState
    const storage: LocalStorage

    /** `useState({isActive: false, activatedAt: null, initiator: null, location: null})`. */
    constructor (storage: LocalStorage)
      ensures state == Inactive && this.storage == storage
    {
      state := Inactive;
      this.storage := storage;
    }

    /** The mount-time effect: adopt a live stored record, remove a stale or corrupt one. */
    method LoadFromStorage(codec: Codec<SosState>)
      modifies this, storage
      ensures var o := LoadFrom(old(storage.GetItem(SosStorageKey)), codec);
        && state == o.adopted.GetOr(old(state))
        && storage.items == if o.removeKey then old(storage.items) - {SosStorageKey} else old(storage.items)
    {
      var outcome := LoadFrom(storage.GetItem(SosStorageKey), codec);
      if outcome.adopted.Some? {
        state := outcome.adopted.value;
      }
      if outcome.removeKey {
        storage.RemoveItem(SosStorageKey);
      }
    }

    /** A cross-tab `storage` event; storage itself is written by the other tab. */
    method HandleStorageChange(key: string, newValue: Option<string>, codec: Codec<SosState>)
      modifies this
      ensures state == OnStorageEvent(old(state), key, newValue, codec)
    {
      if key == SosStorageKey {
        if IsPresent(newValue) {
          var parsed := codec.parse(newValue.value);
          if parsed.Some? {
            state := parsed.value;
          }
        } else {
          state := Inactive;
        }
      }
    }

    /** `activateSOS`: replaces the whole record, whatever it was, writes it to storage and
        returns the record it dispatches as the `sosStateChange` event detail. */
    method Activate(now: int, initiator: Option<JsonObject>, location: Option<JsonObject>,
                    codec: Codec<SosState>) returns (detail: SosState)
      modifies this, storage
      ensures state == Activated(now, initiator, location) && detail == state
      ensures storage.items == old(storage.items)[SosStorageKey := codec.stringify(state)]
    {
      var newState := SosState(true, Some(now), initiator, location);
      state := newState;
      storage.SetItem(SosStorageKey, codec.stringify(newState));
      detail := newState;
    }

    /** `deactivateSOS`: clears the record, removes the key and dispatches the cleared record. */
    method Deactivate() returns (detail: SosState)
      modifies this, storage
      ensures state == Inactive && detail == Inactive
      ensures storage.items == old(storage.items) - {SosStorageKey}
    {
      state := Inactive;
      storage.RemoveItem(SosStorageKey);
      detail := Inactive;
    }

    /** The same-tab `sosStateChange` handler: adopts the event detail as it is. */
    method HandleSosStateChange(detail: SosState)
      modifies this
      ensures state == detail
    {
      state := detail;
    }
  }

  // Properties of the session record

  /** Activation and deactivation always leave a well-formed record, and so does the
      load (which adopts only live records). */
  lemma TransitionsKeepWellFormed(now: int, initiator: Option<JsonObject>, location: Option<JsonObject>,
                                  stored: Option<string>, codec: Codec<SosState>)
    ensures WellFormed(Activated(now, initiator, location))
    ensures WellFormed(Inactive)
    ensures LoadFrom(stored, codec).adopted.Some? ==> WellFormed(LoadFrom(stored, codec).adopted.value)
  {
  }

  /** The storage event does not keep that invariant: a parsed record with
      `isActive: true` and no timestamp is adopted as it is, and the elapsed time of such
      a record is 0. The load would have rejected the same string. */
  lemma StorageEventAdoptsUncheckedRecord()
    ensures var bad := SosState(true, None, None, None);
      var codec := Codec((s: string) => Some(bad), (r: SosState) => "{}");
      && !WellFormed(bad)
      && OnStorageEvent(Inactive, SosStorageKey, Some("{}"), codec) == bad
      && ElapsedSeconds(bad, 65000) == 0
      && LoadFrom(Some("{}"), codec) == LoadOutcome(None, true)
  {
  }

  /** An unparsable stored record is removed and the state stays as it was. */
  lemma CorruptStoredRecordIsDiscarded(stored: string, codec: Codec<SosState>)
    requires stored != "" && codec.parse(stored).None?
    ensures LoadFrom(Some(stored), codec) == LoadOutcome(None, true)
  {
  }

  /** What activation writes is what a later load restores (when the timestamp is truthy). */
  lemma LoadRestoresActivation(now: int, initiator: Option<JsonObject>, location: Option<JsonObject>,
                               codec: Codec<SosState>)
    requires RoundTrips(codec) && now != 0
    requires codec.stringify(Activated(now, initiator, location)) != ""
    ensures LoadFrom(Some(codec.stringify(Activated(now, initiator, location))), codec)
            == LoadOutcome(Some(Activated(now, initiator, location)), false)
  {
    var a := Activated(now, initiator, location);
    assert codec.parse(codec.stringify(a)) == Some(a);
  }

  /** Cross-tab synchronisation: the value one tab writes on activation, delivered to
      another tab as a storage event, makes that tab's record equal the writer's,
      whatever it held before; the removal on deactivation (a null new value) makes it
      inactive. */
  lemma StorageEventMirrorsOtherTab(other: SosState, now: int, initiator: Option<JsonObject>,
                                    location: Option<JsonObject>, codec: Codec<SosState>)
    requires RoundTrips(codec)
    requires codec.stringify(Activated(now, initiator, location)) != ""
    ensures OnStorageEvent(other, SosStorageKey, Some(codec.stringify(Activated(now, initiator, location))), codec)
            == Activated(now, initiator, location)
    ensures OnStorageEvent(other, SosStorageKey, None, codec) == Inactive
  {
    var a := Activated(now, initiator, location);
    assert codec.parse(codec.stringify(a)) == Some(a);
  }

  /** Elapsed time right after activation is 0, and `t` milliseconds later it is
      `floor(t / 1000)`; after deactivation it is 0 again. */
  lemma ElapsedSinceActivation(now: int, t: int, initiator: Option<JsonObject>, location: Option<JsonObject>)
    requires now != 0
    ensures ElapsedSeconds(Activated(now, initiator, location), now) == 0
    ensures ElapsedSeconds(Activated(now, initiator, location), now + t) == t / 1000
    ensures ElapsedSeconds(Inactive, now + t) == 0
  {
    var a := Activated(now, initiator, location);
    assert IsLive(a);
  }

  /** The 65-second scenario: activated at `now`, queried 65000 ms later. An activation
      timestamp of 0 is falsy, so such a record always reports 0. */
  lemma ElapsedScenario(now: int)
    requires now != 0
    ensures ElapsedSeconds(Activated(now, None, None), now + 65000) == 65
    ensures ElapsedSeconds(Activated(0, None, None), 65000) == 0
  {
    ElapsedSinceActivation(now, 65000, None, None);
  }
}
