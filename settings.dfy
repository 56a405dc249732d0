/**
 * The plugin's settings page: one integer setting, the number of seconds
 * the front end may cache ticket data. The page reads it with a default of
 * 1200 and saves whatever integer the form submitted.
 */
module Settings {
  import opened Wrappers
  import Php

  /** Name of the setting in the installation's settings store. */
  const CacheExpirationKey: string := "itk-leantime-timetable.ticketCacheExpiration"

  /** Name of the form field `post` reads. */
  const CacheExpirationParam: string := "ticketCacheExpiration"

  const DefaultCacheExpiration: int := 1200

  /** Where `post` sends the browser back to, below the installation's base URL. */
  const SettingsPage: string := "/TimeTable/settings"

  /**
   * `get`: `(int) (getSetting(key) ?: 1200)`, with the store taken to
   * answer null for a key that was never saved. A truthy stored value is
   * shown as it is; an unset or zero value falls back to 1200.
   */
  function CacheExpiration(settings: map<string, int>): (seconds: int)
    ensures !Php.FalsyInt(Lookup(settings, CacheExpirationKey)) ==> seconds == settings[CacheExpirationKey]
    ensures Php.FalsyInt(Lookup(settings, CacheExpirationKey)) ==> seconds == DefaultCacheExpiration
    ensures seconds != 0
  {
    var stored := Lookup(settings, CacheExpirationKey);
    if Php.FalsyInt(stored) then DefaultCacheExpiration else stored.value
  }

  /** `(int) ($params['ticketCacheExpiration'] ?? 0)`. */
  function SubmittedExpiration(params: map<string, string>): (v: int)
    ensures CacheExpirationParam !in params ==> v == 0
    ensures CacheExpirationParam in params ==> v == Php.IntCast(params[CacheExpirationParam])
  {
    if CacheExpirationParam in params then Php.IntCast(params[CacheExpirationParam]) else 0
  }

  /** The store after `saveSetting(key, (int) …)`: only the cache key changes. */
  function SaveExpiration(settings: map<string, int>, params: map<string, string>): (saved: map<string, int>)
    ensures saved.Keys == settings.Keys + {CacheExpirationKey}
    ensures saved[CacheExpirationKey] == SubmittedExpiration(params)
    ensures forall k :: k in settings && k != CacheExpirationKey ==> saved[k] == settings[k]
  {
    settings[CacheExpirationKey := SubmittedExpiration(params)]
  }

  /** The notification `post` leaves on the page. */
  datatype Notice = SavedNotice | SaveFailedNotice

  /**
   * The settings controller together with the settings store it writes
   * through.
   */
  class SettingsController {
    var settings: map<string, int>

    constructor (initial: map<string, int>)
      ensures settings == initial
    {
      settings := initial;
    }

    /** What `get` assigns to the page. */
    function TicketCacheExpiration(): (seconds: int)
      reads this
      ensures seconds != 0
      ensures CacheExpirationKey in settings && settings[CacheExpirationKey] != 0 ==>
                seconds == settings[CacheExpirationKey]
    {
      CacheExpiration(settings)
    }

    /**
     * `post`: save the submitted value. `saveFails` stands for the settings
     * store throwing; the exception is caught, nothing is written, and the
     * redirect is the same either way.
     */
    method Post(params: map<string, string>, saveFails: bool) returns (notice: Notice, redirect: string)
      modifies this
      ensures redirect == SettingsPage
      ensures saveFails ==> settings == old(settings) && notice == SaveFailedNotice
      ensures !saveFails ==> settings == SaveExpiration(old(settings), params) && notice == SavedNotice
    {
      if saveFails {
        notice := SaveFailedNotice;
      } else {
        settings := SaveExpiration(settings, params);
        notice := SavedNotice;
      }
      redirect := SettingsPage;
    }
  }

  /**
   * Round trip: after the form submits the decimal text of `v`, the page
   * shows `v` again, except that 0 reads back as 1200. Negative values are
   * stored and read back like any other.
   */
  lemma SaveThenRead(settings: map<string, int>, v: int)
    ensures CacheExpiration(SaveExpiration(settings, map[CacheExpirationParam := Php.IntToDecimal(v)]))
            == if v != 0 then v else DefaultCacheExpiration
  {
    Php.CastOfDecimal(v);
  }

  /** Submitting the form without the field stores 0, which reads back as 1200. */
  lemma SaveMissingThenRead(settings: map<string, int>, params: map<string, string>)
    requires CacheExpirationParam !in params
    ensures SaveExpiration(settings, params)[CacheExpirationKey] == 0
    ensures CacheExpiration(SaveExpiration(settings, params)) == DefaultCacheExpiration
  {
  }
}
