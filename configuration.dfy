/**
 * The client's configuration object: remote endpoint, API key, an enabled
 * flag, the transport options and the name of the transport strategy.
 */
module Config {
  import opened Php

  /** Largest serialised request body a transport may post, in bytes. */
  const MAX_POST_LENGTH: nat := 65536

  class Configuration {
    /** `null` until `SetEndpoint` succeeds. */
    var endpoint: Option<string>
    /** `null` until `SetAPIKey` succeeds. */
    var apiKey: Option<string>
    var enabled: bool
    var transport: string
    var options: map<string, string>

    /** The property initialisers that hold before the constructor body runs. */
    constructor Init()
      ensures endpoint == None && apiKey == None
      ensures enabled && transport == "sync" && options == map[]
    {
      endpoint := None;
      apiKey := None;
      enabled := true;
      transport := "sync";
      options := map[];
    }

    /**
     * `new Configuration($endpoint, $apiKey)`. An argument that is not a
     * string is `None`. With two strings both go through the validating
     * setters, endpoint first; otherwise neither is set and the
     * configuration is disabled.
     */
    static method New(endpoint: Option<string>, apiKey: Option<string>) returns (r: Result<Configuration>)
      ensures endpoint.None? || apiKey.None? ==>
        r.Ok? && fresh(r.value) &&
        r.value.endpoint == None && r.value.apiKey == None && !r.value.enabled &&
        r.value.transport == "sync" && r.value.options == map[]
      ensures endpoint.Some? && apiKey.Some? && PhpEmpty(Trim(endpoint.value)) ==>
        r == Err(InvalidArgument("Invalid Endpoint"))
      ensures endpoint.Some? && apiKey.Some? && !PhpEmpty(Trim(endpoint.value)) && PhpEmpty(Trim(apiKey.value)) ==>
        r == Err(InvalidArgument("API key cannot be empty"))
      ensures endpoint.Some? && apiKey.Some? && !PhpEmpty(Trim(endpoint.value)) && !PhpEmpty(Trim(apiKey.value)) ==>
        r.Ok? && fresh(r.value) &&
        r.value.endpoint == Some(Trim(endpoint.value)) && r.value.apiKey == Some(Trim(apiKey.value)) &&
        r.value.enabled && r.value.transport == "sync" && r.value.options == map[]
    {
      var c := new Configuration.Init();
      if endpoint.Some? && apiKey.Some? {
        var o := c.SetEndpoint(endpoint.value);
        if o.Fail? {
          return Err(o.error);
        }
        o := c.SetAPIKey(apiKey.value);
        if o.Fail? {
          return Err(o.error);
        }
      } else {
        c.SetEnabled(false);
      }
      return Ok(c);
    }

    /** `setEndpoint`: store the trimmed value, or reject a PHP-empty one and keep the old endpoint. */
    method SetEndpoint(value: string) returns (r: Outcome)
      modifies this`endpoint
      ensures PhpEmpty(Trim(value)) ==> r == Fail(InvalidArgument("Invalid Endpoint")) && endpoint == old(endpoint)
      ensures !PhpEmpty(Trim(value)) ==> r == Pass && endpoint == Some(Trim(value))
    {
      var v := Trim(value);
      if PhpEmpty(v) {
        return Fail(InvalidArgument("Invalid Endpoint"));
      }
      endpoint := Some(v);
      return Pass;
    }

    /** `setAPIKey`: store the trimmed key, or reject a PHP-empty one and keep the old key. */
    method SetAPIKey(value: string) returns (r: Outcome)
      modifies this`apiKey
      ensures PhpEmpty(Trim(value)) ==> r == Fail(InvalidArgument("API key cannot be empty")) && apiKey == old(apiKey)
      ensures !PhpEmpty(Trim(value)) ==> r == Pass && apiKey == Some(Trim(value))
    {
      var v := Trim(value);
      if PhpEmpty(v) {
        return Fail(InvalidArgument("API key cannot be empty"));
      }
      apiKey := Some(v);
      return Pass;
    }

    /** `addOption`: one key gets the value, every other entry stays as it was. */
    method AddOption(key: string, value: string)
      modifies this`options
      ensures options.Keys == old(options).Keys + {key}
      ensures options[key] == value
      ensures forall k :: k in old(options) && k != key ==> options[k] == old(options)[k]
    {
      options := options[key := value];
    }

    /** `setOptions`: the whole option map is replaced. */
    method SetOptions(newOptions: map<string, string>)
      modifies this`options
      ensures options == newOptions
    {
      options := newOptions;
    }

    /** `isEnabled`: an API key has been stored (always a string) and the flag is on. */
    predicate IsEnabled()
      reads this
      ensures IsEnabled() ==> apiKey.Some?
    {
      apiKey.Some? && enabled
    }

    /** `setEnabled`: only the flag changes. */
    method SetEnabled(value: bool)
      modifies this`enabled
      ensures enabled == value
      ensures IsEnabled() <==> apiKey.Some? && value
    {
      enabled := value;
    }

    /** `setTransport`: `transport` (what `getTransport` returns) is the new name. */
    method SetTransport(name: string)
      modifies this`transport
      ensures transport == name
    {
      transport := name;
    }
  }

  /** Whatever happens to the enabled flag afterwards, a configuration built without an API key string is disabled. */
  method NoKeyNeverEnabled(endpoint: Option<string>, flag: bool)
  {
    var r := Configuration.New(endpoint, None);
    var c := r.value;
    assert !c.IsEnabled();
    c.SetEnabled(flag);
    assert !c.IsEnabled();
  }
}
