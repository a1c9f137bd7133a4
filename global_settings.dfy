/**
 * The site-wide settings table of the dashboard app: `GlobalSetting` rows, the
 * save rule that keeps at most one of them active and invalidates the cached
 * copy, and `get_current_global_settings`, which reads the active row through
 * the process-wide cache (key `current_global_settings`, 60 second timeout)
 * and creates a row named "Default" when none is active.
 *
 * Only the fields the modelled code reads are kept.  Primary keys (UUIDs) are
 * natural numbers supplied by the caller.
 */
module GlobalSettings {
  import opened Wrappers
  import opened OtpGenerationService
  import Cache
  import Database

  type SettingId = nat

  const CacheKey := "current_global_settings"
  const CacheTimeoutSeconds: nat := 60
  const DefaultName := "Default"

  datatype GlobalSetting = GlobalSetting(
    name: string,
    isActive: bool,
    isMaintenanceMode: bool,
    maintenanceModeMessage: string,
    otpGenerationFeature: string,
    otpValidDurationSeconds: nat,
    otpResendWaitDurationSeconds: nat,
    otpDigitCount: nat,
    otpTestCustomer: Option<Database.EnrollmentId>,
    smsCostCents: nat)

  /** A row created with only its name given: every other field at its default. */
  function NewSetting(name: string): GlobalSetting {
    GlobalSetting(name, true, false, "", RandomFeature, 300, 60, 6, None, 0)
  }

  /** A fresh setting is active, generates random six-digit codes valid for
      five minutes, allows a resend after one minute, has no test customer and
      is not in maintenance mode. */
  lemma NewSettingDefaults(name: string)
    ensures var s := NewSetting(name);
            && s.name == name && s.isActive && !s.isMaintenanceMode
            && GetOtpGenerationService(s.otpGenerationFeature) == Ok(RandomGenerator)
            && s.otpValidDurationSeconds == 300 && s.otpResendWaitDurationSeconds == 60
            && s.otpDigitCount == 6 && s.otpTestCustomer.None?
  {
  }

  /** Errors the database raises. */
  datatype SettingsError =
    | IntegrityError(column: string)   // the unique `name` column would be duplicated
    | MultipleObjectsReturned          // `get` found more than one active row

  // ----- table invariants and the effect of `save` -------------------------

  predicate AtMostOneActive(rows: map<SettingId, GlobalSetting>) {
    forall a, b :: a in rows && b in rows && rows[a].isActive && rows[b].isActive ==> a == b
  }

  predicate NamesUnique(rows: map<SettingId, GlobalSetting>) {
    forall a, b :: a in rows && b in rows && rows[a].name == rows[b].name ==> a == b
  }

  /** Another row than `id` already carries `name`. */
  predicate NameTaken(rows: map<SettingId, GlobalSetting>, id: SettingId, name: string) {
    exists k :: k in rows && k != id && rows[k].name == name
  }

  /** `GlobalSetting.objects.exclude(pk=id).update(is_active=False)`. */
  function Deactivated(rows: map<SettingId, GlobalSetting>, id: SettingId): (r: map<SettingId, GlobalSetting>)
    ensures r.Keys == rows.Keys
    ensures forall k :: k in r && k != id ==> r[k] == rows[k].(isActive := false)
    ensures id in rows ==> r[id] == rows[id]
  {
    map k | k in rows :: if k == id then rows[k] else rows[k].(isActive := false)
  }

  /** The table after `save` of row `id` with content `s` commits. */
  function SavedRows(rows: map<SettingId, GlobalSetting>, id: SettingId, s: GlobalSetting): map<SettingId, GlobalSetting> {
    (if s.isActive then Deactivated(rows, id) else rows)[id := s]
  }

  /** Saving an active setting leaves it the only active one. */
  lemma SaveActiveIsOnlyActive(rows: map<SettingId, GlobalSetting>, id: SettingId, s: GlobalSetting)
    requires s.isActive
    ensures var after := SavedRows(rows, id, s);
            && after[id].isActive
            && (forall k :: k in after && after[k].isActive ==> k == id)
  {
  }

  /** Saving an inactive setting changes no other row, `is_active` included;
      saving an active one changes only the others' `is_active`. */
  lemma SaveTouchesOthersOnlyInIsActive(rows: map<SettingId, GlobalSetting>, id: SettingId, s: GlobalSetting)
    ensures var after := SavedRows(rows, id, s);
            && after.Keys == rows.Keys + {id}
            && (forall k :: k in rows && k != id ==> after[k].(isActive := rows[k].isActive) == rows[k])
            && (!s.isActive ==> forall k :: k in rows && k != id ==> after[k] == rows[k])
  {
  }

  /** A save that passes the unique-name check keeps both table invariants. */
  lemma SavePreservesInvariants(rows: map<SettingId, GlobalSetting>, id: SettingId, s: GlobalSetting)
    requires AtMostOneActive(rows) && NamesUnique(rows)
    requires !NameTaken(rows, id, s.name)
    ensures AtMostOneActive(SavedRows(rows, id, s)) && NamesUnique(SavedRows(rows, id, s))
  {
    var after := SavedRows(rows, id, s);
    forall a, b | a in after && b in after && after[a].name == after[b].name
      ensures a == b
    {
      if a != id && b != id {
        assert after[a].name == rows[a].name && after[b].name == rows[b].name;
      }
    }
  }

  // ----- the active row and the cached copy ---------------------------------

  function ActiveIds(rows: map<SettingId, GlobalSetting>): set<SettingId> {
    set k | k in rows && rows[k].isActive
  }

  /** What `GlobalSetting.objects.get(is_active=True)` finds. */
  datatype Lookup = Found(id: SettingId) | Missing | Multiple

  ghost function FindActive(rows: map<SettingId, GlobalSetting>): (l: Lookup)
    ensures l.Found? ==> ActiveIds(rows) == {l.id}
    ensures l.Missing? <==> ActiveIds(rows) == {}
    ensures l.Multiple? ==> exists a, b :: a in ActiveIds(rows) && b in ActiveIds(rows) && a != b
  {
    if ActiveIds(rows) == {} then Missing
    else
      var k :| k in ActiveIds(rows);
      if ActiveIds(rows) == {k} then Found(k)
      else
        var j :| j in ActiveIds(rows) && j != k;
        Multiple
  }

  /** Under the single-active invariant the lookup never finds several rows. */
  lemma FindActiveNeverMultiple(rows: map<SettingId, GlobalSetting>)
    requires AtMostOneActive(rows)
    ensures !FindActive(rows).Multiple?
  {
  }

  /** A value cached under the key is an active row of the table. */
  ghost predicate Coherent(rows: map<SettingId, GlobalSetting>, entries: map<string, Cache.Entry<Option<GlobalSetting>>>) {
    CacheKey in entries && entries[CacheKey].value.Some? ==>
      exists k :: k in rows && rows[k] == entries[CacheKey].value.value && rows[k].isActive
  }

  /** With a coherent cache and a single active row, a cache hit returns
      exactly that row: the cached copy is never stale. */
  lemma CacheHitIsCurrent(rows: map<SettingId, GlobalSetting>, entries: map<string, Cache.Entry<Option<GlobalSetting>>>,
                          now: int, id: SettingId)
    requires AtMostOneActive(rows) && Coherent(rows, entries)
    requires id in rows && rows[id].isActive
    requires Cache.GlobalHit(entries, CacheKey, now).Some?
    ensures Cache.GlobalHit(entries, CacheKey, now) == Some(rows[id])
  {
  }

  /** The `GlobalSetting` table. */
  class SettingsTable {
    var rows: map<SettingId, GlobalSetting>

    ghost predicate Valid()
      reads this
    {
      AtMostOneActive(rows) && NamesUnique(rows)
    }

    constructor ()
      ensures Valid() && rows == map[]
    {
      rows := map[];
    }

    /** `GlobalSetting.save` of row `id` with content `s`, inside a transaction:
        the cache key is deleted whether or not the write commits, and a
        duplicate name rolls the deactivation of the other rows back. */
    method Save(id: SettingId, s: GlobalSetting, cache: Cache.GlobalCache<Option<GlobalSetting>>)
      returns (r: Outcome<SettingsError>)
      requires Valid()
      modifies this, cache
      ensures Valid()
      ensures cache.entries == old(cache.entries) - {CacheKey}
      ensures r.Fail? <==> NameTaken(old(rows), id, s.name)
      ensures r.Fail? ==> r.error == IntegrityError("name") && rows == old(rows)
      ensures r.Pass? ==> rows == SavedRows(old(rows), id, s)
    {
      var before := rows;
      if s.isActive {
        rows := Deactivated(rows, id);
      }
      cache.Delete(CacheKey);
      if exists k :: k in rows && k != id && rows[k].name == s.name {
        rows := before;
        return Fail(IntegrityError("name"));
      }
      assert !NameTaken(before, id, s.name);
      rows := rows[id := s];
      SavePreservesInvariants(before, id, s);
      r := Pass;
    }

    /** `get_current_global_settings()` at time `now`; `newId` is the key a
        created row would get. */
    method GetCurrentGlobalSettings(cache: Cache.GlobalCache<Option<GlobalSetting>>, now: int, newId: SettingId)
      returns (r: Result<GlobalSetting, SettingsError>)
      requires Valid() && Coherent(rows, cache.entries)
      requires newId !in rows
      modifies this, cache
      ensures Valid() && Coherent(rows, cache.entries)
      ensures Cache.GlobalHit(old(cache.entries), CacheKey, now).Some? ==>
                && r == Ok(Cache.GlobalHit(old(cache.entries), CacheKey, now).value)
                && rows == old(rows) && cache.entries == old(cache.entries)
      ensures Cache.GlobalHit(old(cache.entries), CacheKey, now).None? ==>
                match FindActive(old(rows))
                case Found(k) =>
                  && r == Ok(old(rows)[k]) && rows == old(rows)
                  && cache.entries == old(cache.entries)[CacheKey := Cache.Entry(Some(old(rows)[k]), Some(now + CacheTimeoutSeconds))]
                case Missing =>
                  if NameTaken(old(rows), newId, DefaultName) then
                    && r == Err(IntegrityError("name")) && rows == old(rows)
                    && cache.entries == old(cache.entries) - {CacheKey}
                  else
                    && r == Ok(NewSetting(DefaultName)) && rows == old(rows)[newId := NewSetting(DefaultName)]
                    && cache.entries == old(cache.entries)[CacheKey := Cache.Entry(Some(NewSetting(DefaultName)), Some(now + CacheTimeoutSeconds))]
                case Multiple => false
    {
      var cached := cache.Get(CacheKey, now);
      if cached.Some? && cached.value.Some? {
        return Ok(cached.value.value);
      }
      FindActiveNeverMultiple(rows);
      var active := set k | k in rows && rows[k].isActive;
      var setting;
      if active == {} {
        setting := NewSetting(DefaultName);
        assert Deactivated(rows, newId) == rows by {
          forall k | k in rows ensures Deactivated(rows, newId)[k] == rows[k] {
            assert k !in active;
          }
        }
        var saved := Save(newId, setting, cache);
        if saved.Fail? {
          return Err(saved.error);
        }
        assert rows[newId] == setting;
      } else {
        var k :| k in active;
        assert active == {k};
        setting := rows[k];
        assert rows[k] == setting && rows[k].isActive;
      }
      cache.Set(CacheKey, Some(setting), Some(CacheTimeoutSeconds), now);
      r := Ok(setting);
    }
  }
}
