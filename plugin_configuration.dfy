/**
 * The plugin configuration as the credentials cache of the client library:
 * one slot of saved credentials, cleared or overwritten, and read back only
 * under the username it was saved for.
 */
module Configuration {
  import opened Wrappers
  import opened Positional
  import opened Sessions

  class PluginConfiguration {
    /** The device id, drawn freshly by the constructor; here it is given. */
    var deviceId: seq<byte>
    var spotifyCredentials: Option<Credentials>

    constructor(deviceId: seq<byte>)
      ensures this.deviceId == deviceId && spotifyCredentials.None?
    {
      this.deviceId := deviceId;
      spotifyCredentials := None;
    }

    /** `ClearCredentialsAsync`: whatever the username, the slot is emptied. */
    method ClearCredentials(username: Option<string>)
      modifies this
      ensures spotifyCredentials.None? && deviceId == old(deviceId)
    {
      spotifyCredentials := None;
    }

    /** `SaveCredentialsAsync`: the slot holds exactly the given credentials. */
    method SaveCredentials(credentials: Credentials)
      modifies this
      ensures spotifyCredentials == Some(credentials) && deviceId == old(deviceId)
    {
      spotifyCredentials := Some(credentials);
    }

    /**
     * `LoadCredentialsAsync`: the saved credentials when the username is
     * theirs, and null otherwise; an empty slot has the null username, so
     * it answers null to every request.
     */
    function LoadCredentials(username: Option<string>): (r: Option<Credentials>)
      reads this
      ensures r.Some? <==> spotifyCredentials.Some? && username == Some(spotifyCredentials.value.username)
      ensures r.Some? ==> r == spotifyCredentials
    {
      var stored := if spotifyCredentials.Some? then Some(spotifyCredentials.value.username) else None;
      if username == stored then spotifyCredentials else None
    }

    /** `LoadLastUsernameAsync`: the saved credentials' username, or null. */
    function LoadLastUsername(): (r: Option<string>)
      reads this
      ensures r.Some? <==> spotifyCredentials.Some?
      ensures r.Some? ==> r.value == spotifyCredentials.value.username
    {
      if spotifyCredentials.Some? then Some(spotifyCredentials.value.username) else None
    }
  }

  /** After a save, the credentials load back under their own username, and that username is the last one. */
  method SaveThenLoad(config: PluginConfiguration, credentials: Credentials) returns (loaded: Option<Credentials>, last: Option<string>)
    modifies config
    ensures loaded == Some(credentials) && last == Some(credentials.username)
    ensures forall u :: u != Some(credentials.username) ==> config.LoadCredentials(u).None?
  {
    config.SaveCredentials(credentials);
    loaded := config.LoadCredentials(Some(credentials.username));
    last := config.LoadLastUsername();
  }

  /** After a clear, nothing loads, under any username. */
  method ClearThenLoad(config: PluginConfiguration, username: Option<string>) returns (loaded: Option<Credentials>, last: Option<string>)
    modifies config
    ensures loaded.None? && last.None?
  {
    config.ClearCredentials(username);
    loaded := config.LoadCredentials(username);
    last := config.LoadLastUsername();
  }
}
