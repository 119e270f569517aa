/**
 * SKU-token rotation on Android: a token is obtained for the end user,
 * stored in the preferences with the time it was obtained, and replaced by
 * a new one when it is more than an hour old. When the app does not let
 * the SDK manage the token, the token is whatever the preferences hold.
 * The clock, the user-id generator and the token generator are parameters.
 */
module Accounts {
  import opened Wrappers

  /** Java's 64-bit `long`. */
  newtype Long = x: int | -0x8000_0000_0000_0000 <= x < 0x8000_0000_0000_0000

  const HourInMillis: int := 60 * 60 * 1000

  const PreferenceUserId := "com.mapbox.mapboxsdk.accounts.userid"
  const PreferenceTimestamp := "com.mapbox.mapboxsdk.accounts.timestamp"
  /** The shared token key; only its being distinct from the other two keys matters here. */
  const PreferenceSkuToken := "com.mapbox.mapboxsdk.accounts.skutoken"

  /** A stored preference value. */
  datatype Pref = PString(s: string) | PLong(l: Long)

  type Prefs = map<string, Pref>

  /** A string preference, or the default when it is absent or not a string. */
  function GetString(prefs: Prefs, key: string, default: string): string {
    if key in prefs && prefs[key].PString? then prefs[key].s else default
  }

  /** A long preference, or the default when it is absent or not a long. */
  function GetLong(prefs: Prefs, key: string, default: Long): Long {
    if key in prefs && prefs[key].PLong? then prefs[key].l else default
  }

  /** Two's-complement wrap-around of a 64-bit subtraction. */
  function WrapLong(x: int): (r: Long)
    ensures (r as int - x) % 0x1_0000_0000_0000_0000 == 0
    ensures -0x8000_0000_0000_0000 <= x < 0x8000_0000_0000_0000 ==> r as int == x
  {
    ((x + 0x8000_0000_0000_0000) % 0x1_0000_0000_0000_0000 - 0x8000_0000_0000_0000) as Long
  }

  /** More than an hour has passed from `stamp` to `now`, computed in 64-bit arithmetic. */
  predicate IsExpired(now: Long, stamp: Long) {
    WrapLong(now as int - stamp as int) as int > HourInMillis
  }

  /** When the difference does not overflow, expiry is "strictly more than one hour later". */
  lemma ExpiredIffMoreThanAnHour(now: Long, stamp: Long)
    requires -0x8000_0000_0000_0000 <= now as int - stamp as int < 0x8000_0000_0000_0000
    ensures IsExpired(now, stamp) <==> now as int - stamp as int > HourInMillis
  {
  }

  /**
   * A difference of 2^63 or more overflows upwards and wraps to a negative
   * value: such a token never counts as expired, however old it is.
   */
  lemma UpwardOverflowNeverExpires(now: Long, stamp: Long)
    requires now as int - stamp as int >= 0x8000_0000_0000_0000
    ensures !IsExpired(now, stamp)
  {
    var d := now as int - stamp as int;
    assert (d + 0x8000_0000_0000_0000) % 0x1_0000_0000_0000_0000 == d - 0x8000_0000_0000_0000;
  }

  /**
   * A difference below -2^63 overflows downwards and wraps up by 2^64: such a
   * token counts as expired exactly when the wrapped difference is more than
   * an hour, although `now` is earlier than `stamp`.
   */
  lemma DownwardOverflowWraps(now: Long, stamp: Long)
    requires now as int - stamp as int < -0x8000_0000_0000_0000
    ensures IsExpired(now, stamp) <==> now as int - stamp as int + 0x1_0000_0000_0000_0000 > HourInMillis
  {
    var d := now as int - stamp as int;
    assert (d + 0x8000_0000_0000_0000) % 0x1_0000_0000_0000_0000 == d + 0x1_8000_0000_0000_0000;
  }

  /** For example, a token stamped 1 ms after the earliest instant is expired at that instant. */
  lemma DownwardOverflowCanExpire()
    ensures IsExpired(-0x8000_0000_0000_0000, 1)
  {
    DownwardOverflowWraps(-0x8000_0000_0000_0000, 1);
  }

  // ---------------------------------------------------------------------
  // The state machine, as functions of the state
  // ---------------------------------------------------------------------

  datatype State = State(timestamp: Long, skuToken: Option<string>, isManaged: bool, prefs: Prefs)

  /** A managed state's token and timestamp are the ones stored in the preferences. */
  predicate Synced(s: State) {
    s.isManaged ==>
      s.skuToken.Some?
      && s.prefs[PreferenceTimestamp := PLong(s.timestamp)][PreferenceSkuToken := PString(s.skuToken.value)] == s.prefs
  }

  /** The stored user id, or a new one, which is then stored. */
  function UserIdAfter(prefs: Prefs, generated: string): (Prefs, string) {
    var stored := GetString(prefs, PreferenceUserId, "");
    if stored != "" then (prefs, stored) else (prefs[PreferenceUserId := PString(generated)], generated)
  }

  /** Stores a token with the time it was obtained. */
  function Persisted(prefs: Prefs, token: string, now: Long): Prefs {
    prefs[PreferenceTimestamp := PLong(now)][PreferenceSkuToken := PString(token)]
  }

  /**
   * Adopts the stored token and timestamp, or, when the timestamp is 0 or the
   * token is empty, obtains a token for the user and stores it.
   */
  function RotationAfter(s: State, userId: string, now: Long, tokenFor: string -> string): State {
    var stamp := GetLong(s.prefs, PreferenceTimestamp, 0);
    var token := GetString(s.prefs, PreferenceSkuToken, "");
    if stamp == 0 || token == "" then
      var newToken := tokenFor(userId);
      s.(skuToken := Some(newToken), timestamp := now, prefs := Persisted(s.prefs, newToken, now))
    else s.(timestamp := stamp, skuToken := Some(token))
  }

  /** The state a new manager starts in. */
  function Initial(managed: bool, prefs: Prefs, now: Long, newUserId: string, tokenFor: string -> string): State {
    var s := State(0, None, managed, prefs);
    if managed then
      var (prefs', userId) := UserIdAfter(prefs, newUserId);
      RotationAfter(s.(prefs := prefs'), userId, now, tokenFor)
    else s
  }

  /**
   * Reading the token: a managed token older than an hour (at `checkNow`) is
   * replaced by one obtained for the stored user and stored with the time
   * `persistNow`; an unmanaged token is read from the preferences.
   */
  function SkuTokenAfter(s: State, checkNow: Long, persistNow: Long, tokenFor: string -> string): (State, Option<string>) {
    if s.isManaged then
      if IsExpired(checkNow, s.timestamp) then
        var newToken := tokenFor(GetString(s.prefs, PreferenceUserId, ""));
        var s' := s.(skuToken := Some(newToken), timestamp := persistNow, prefs := Persisted(s.prefs, newToken, persistNow));
        (s', s'.skuToken)
      else (s, s.skuToken)
    else
      var s' := s.(skuToken := Some(GetString(s.prefs, PreferenceSkuToken, "")));
      (s', s'.skuToken)
  }

  lemma PersistedReads(prefs: Prefs, token: string, now: Long)
    ensures GetLong(Persisted(prefs, token, now), PreferenceTimestamp, 0) == now
    ensures GetString(Persisted(prefs, token, now), PreferenceSkuToken, "") == token
    ensures Persisted(prefs, token, now)[PreferenceTimestamp := PLong(now)][PreferenceSkuToken := PString(token)]
         == Persisted(prefs, token, now)
  {
    assert PreferenceTimestamp != PreferenceSkuToken by {
      assert |PreferenceTimestamp| != |PreferenceSkuToken|;
    }
  }

  /** A manager that does not manage the token starts with timestamp 0 and no token. */
  lemma UnmanagedStartsEmpty(prefs: Prefs, now: Long, newUserId: string, tokenFor: string -> string)
    ensures Initial(false, prefs, now, newUserId, tokenFor) == State(0, None, false, prefs)
  {
  }

  /**
   * A managed manager starts from the stored user id when there is one
   * (otherwise the new one, then stored), and it starts synced with the
   * preferences.
   */
  lemma ManagedStartsSynced(prefs: Prefs, now: Long, newUserId: string, tokenFor: string -> string)
    ensures var s := Initial(true, prefs, now, newUserId, tokenFor);
      && Synced(s)
      && GetString(s.prefs, PreferenceUserId, "") ==
           (if GetString(prefs, PreferenceUserId, "") != "" then GetString(prefs, PreferenceUserId, "") else newUserId)
  {
    var (prefs', userId) := UserIdAfter(prefs, newUserId);
    var s0 := State(0, None, true, prefs');
    var stamp := GetLong(prefs', PreferenceTimestamp, 0);
    var token := GetString(prefs', PreferenceSkuToken, "");
    assert PreferenceUserId != PreferenceTimestamp && PreferenceUserId != PreferenceSkuToken by {
      assert PreferenceUserId[30] != PreferenceTimestamp[30];
      assert PreferenceUserId[30] != PreferenceSkuToken[30];
    }
    if stamp == 0 || token == "" {
      PersistedReads(prefs', tokenFor(userId), now);
    } else {
      assert prefs'[PreferenceTimestamp] == PLong(stamp);
      assert prefs'[PreferenceSkuToken] == PString(token);
      assert prefs'[PreferenceTimestamp := PLong(stamp)][PreferenceSkuToken := PString(token)] == prefs';
    }
  }

  /** Reading the token keeps a managed state synced with the preferences. */
  lemma SkuTokenKeepsSynced(s: State, checkNow: Long, persistNow: Long, tokenFor: string -> string)
    requires Synced(s)
    ensures Synced(SkuTokenAfter(s, checkNow, persistNow, tokenFor).0)
  {
    if s.isManaged && IsExpired(checkNow, s.timestamp) {
      PersistedReads(s.prefs, tokenFor(GetString(s.prefs, PreferenceUserId, "")), persistNow);
    }
  }

  /**
   * A managed token that is at most an hour old is returned unchanged, and
   * nothing is stored; an older one is replaced by a token for the stored
   * user, stamped with the time of storing.
   */
  lemma ManagedRotationOnlyWhenExpired(s: State, checkNow: Long, persistNow: Long, tokenFor: string -> string)
    requires s.isManaged
    ensures var (s', token) := SkuTokenAfter(s, checkNow, persistNow, tokenFor);
      if IsExpired(checkNow, s.timestamp) then
        && token == Some(tokenFor(GetString(s.prefs, PreferenceUserId, "")))
        && s'.timestamp == persistNow
        && GetString(s'.prefs, PreferenceSkuToken, "") == token.value
        && GetLong(s'.prefs, PreferenceTimestamp, 0) == persistNow
      else s' == s && token == s.skuToken
  {
    if IsExpired(checkNow, s.timestamp) {
      PersistedReads(s.prefs, tokenFor(GetString(s.prefs, PreferenceUserId, "")), persistNow);
    }
  }

  /** A freshly rotated token is returned again by any read within the next hour. */
  lemma RotatedTokenStableForAnHour(s: State, checkNow: Long, persistNow: Long, laterNow: Long, laterPersist: Long,
                                    tokenFor: string -> string)
    requires s.isManaged && IsExpired(checkNow, s.timestamp)
    requires 0 <= laterNow as int - persistNow as int <= HourInMillis
    ensures var (s1, t1) := SkuTokenAfter(s, checkNow, persistNow, tokenFor);
      SkuTokenAfter(s1, laterNow, laterPersist, tokenFor) == (s1, t1)
  {
  }

  /** An unmanaged manager returns the stored token, or "" when none is stored, and stores nothing. */
  lemma UnmanagedReadsStoredToken(s: State, checkNow: Long, persistNow: Long, tokenFor: string -> string)
    requires !s.isManaged
    ensures var (s', token) := SkuTokenAfter(s, checkNow, persistNow, tokenFor);
      token == Some(GetString(s.prefs, PreferenceSkuToken, "")) && s'.prefs == s.prefs && s'.timestamp == s.timestamp
  {
  }

  // ---------------------------------------------------------------------
  // The manager object
  // ---------------------------------------------------------------------

  class AccountsManager {
    var timestamp: Long
    var skuToken: Option<string>
    var isManaged: bool
    var prefs: Prefs

    function Snapshot(): State
      reads this
    {
      State(timestamp, skuToken, isManaged, prefs)
    }

    /** `managed` is the app's manifest setting; `now` is the clock; the generators are parameters. */
    constructor(managed: bool, prefs0: Prefs, now: Long, newUserId: string, tokenFor: string -> string)
      ensures Snapshot() == Initial(managed, prefs0, now, newUserId, tokenFor)
    {
      timestamp := 0;
      skuToken := None;
      isManaged := managed;
      prefs := prefs0;
      new;
      if isManaged {
        var userId := ValidateUserId(newUserId);
        ValidateRotation(userId, now, tokenFor);
      }
    }

    method ValidateUserId(generated: string) returns (userId: string)
      modifies this
      ensures (prefs, userId) == UserIdAfter(old(prefs), generated)
      ensures timestamp == old(timestamp) && skuToken == old(skuToken) && isManaged == old(isManaged)
    {
      userId := GetString(prefs, PreferenceUserId, "");
      if userId == "" {
        userId := generated;
        prefs := prefs[PreferenceUserId := PString(userId)];
      }
    }

    method ValidateRotation(userId: string, now: Long, tokenFor: string -> string)
      modifies this
      ensures Snapshot() == RotationAfter(old(Snapshot()), userId, now, tokenFor)
    {
      timestamp := GetLong(prefs, PreferenceTimestamp, 0);
      skuToken := Some(GetString(prefs, PreferenceSkuToken, ""));
      if timestamp == 0 || skuToken.value == "" {
        skuToken := Some(tokenFor(userId));
        timestamp := PersistRotation(skuToken.value, now);
      }
    }

    /** Stores the token and the time, and returns that same time. */
    method PersistRotation(token: string, now: Long) returns (written: Long)
      modifies this
      ensures written == now
      ensures prefs == Persisted(old(prefs), token, now)
      ensures timestamp == old(timestamp) && skuToken == old(skuToken) && isManaged == old(isManaged)
    {
      prefs := prefs[PreferenceTimestamp := PLong(now)][PreferenceSkuToken := PString(token)];
      return now;
    }

    /** `checkNow` is the clock read for the expiry test, `persistNow` the one read when storing. */
    method GetSkuToken(checkNow: Long, persistNow: Long, tokenFor: string -> string) returns (token: Option<string>)
      modifies this
      ensures (Snapshot(), token) == SkuTokenAfter(old(Snapshot()), checkNow, persistNow, tokenFor)
    {
      if isManaged {
        if IsExpired(checkNow, timestamp) {
          var userId := GetString(prefs, PreferenceUserId, "");
          skuToken := Some(tokenFor(userId));
          timestamp := PersistRotation(skuToken.value, persistNow);
        }
      } else {
        skuToken := Some(GetString(prefs, PreferenceSkuToken, ""));
      }
      return skuToken;
    }
  }
}
