/**
 * How SubmarineConfiguration resolves a setting. Each of getString, getInt,
 * getLong and getBoolean takes the first value present among
 *   1. the environment variable named after the enum constant,
 *   2. the JVM system property named after the dotted property name,
 *   3. the properties loaded from the site file (an entry mapped to null
 *      counts as absent),
 * and falls back to the ConfVars default. The environment and the system
 * properties are inputs here: a Runtime gives a snapshot of both.
 */
module Settings {
  import opened Wrappers
  import opened JavaLang
  import opened ConfVars

  /** What System.getenv and System.getProperty return while the server runs. */
  datatype Runtime = Runtime(env: map<string, string>, systemProperties: map<string, string>)

  /** The `properties` HashMap: a key may be mapped to null. */
  type Properties = map<string, Option<string>>

  /** Map.get: null when the key is absent. */
  function Get(m: map<string, string>, key: string): Option<string> {
    if key in m then Some(m[key]) else None
  }

  /** properties.get(name): null when absent or when mapped to null. */
  function PropertyValue(props: Properties, name: string): Option<string> {
    if name in props then props[name] else None
  }

  // ---------------------------------------------------------------------
  // The reference definition: a list of layers, highest precedence first
  // ---------------------------------------------------------------------

  /** The three places a setting may be given, in order of precedence. */
  function Layers(rt: Runtime, props: Properties, envName: string, propertyName: string)
    : seq<Option<string>>
  {
    [Get(rt.env, envName), Get(rt.systemProperties, propertyName), PropertyValue(props, propertyName)]
  }

  /** The first non-null layer, or null when every layer is null. */
  function FirstPresent(layers: seq<Option<string>>): (r: Option<string>)
    ensures r.None? <==> forall i :: 0 <= i < |layers| ==> layers[i].None?
    ensures r.Some? ==> exists i :: 0 <= i < |layers| && layers[i] == r
                                    && forall j :: 0 <= j < i ==> layers[j].None?
  {
    if layers == [] then None
    else if layers[0].Some? then layers[0]
    else
      var r := FirstPresent(layers[1..]);
      assert forall i :: 1 <= i < |layers| ==> layers[1..][i - 1] == layers[i];
      r
  }

  /** Resolving the three layers: the environment, else the system property, else the map. */
  lemma {:induction false} FirstOfLayers(rt: Runtime, props: Properties, envName: string, propertyName: string)
    ensures FirstPresent(Layers(rt, props, envName, propertyName))
            == if envName in rt.env then Some(rt.env[envName])
               else if propertyName in rt.systemProperties then Some(rt.systemProperties[propertyName])
               else PropertyValue(props, propertyName)
  {
    var layers := Layers(rt, props, envName, propertyName);
    assert layers[1..] == [layers[1], layers[2]];
    assert layers[1..][1..] == [layers[2]];
    assert layers[1..][1..][1..] == [];
  }

  /** The text configured for a ConfVars constant, if any layer gives one. */
  function Configured(rt: Runtime, props: Properties, c: ConfVar): Option<string> {
    FirstPresent(Layers(rt, props, c.name, c.varName))
  }

  // ---------------------------------------------------------------------
  // The private get*Value helpers: the properties map, else the default
  // ---------------------------------------------------------------------

  /** getStringValue(name, d). */
  function StringValue(props: Properties, name: string, d: Option<string>): (r: Option<string>)
    ensures r == d || (name in props && r == props[name] && r.Some?)
    ensures r.None? ==> d.None?
    ensures PropertyValue(props, name).Some? ==> r == PropertyValue(props, name)
  {
    var value := PropertyValue(props, name);
    if value.Some? then value else d
  }

  /** getIntValue(name, d): a stored value is parsed; a bad one throws. */
  function IntValue(props: Properties, name: string, d: Int32): (r: Result<Int32>)
    ensures PropertyValue(props, name).None? ==> r == Ok(d)
    ensures PropertyValue(props, name).Some? ==> r == ParseInt(props[name].value)
    ensures PropertyValue(props, name).Some? ==> (r.Ok? <==> ParseInt(props[name].value).Ok?)
    ensures r.Err? ==> r.error == NumberFormat
  {
    var value := PropertyValue(props, name);
    if value.Some? then ParseInt(value.value) else Ok(d)
  }

  /** getLongValue(name, d). */
  function LongValue(props: Properties, name: string, d: Int64): (r: Result<Int64>)
    ensures PropertyValue(props, name).None? ==> r == Ok(d)
    ensures PropertyValue(props, name).Some? ==> r == ParseLong(props[name].value)
    ensures PropertyValue(props, name).Some? ==> (r.Ok? <==> ParseLong(props[name].value).Ok?)
    ensures r.Err? ==> r.error == NumberFormat
  {
    var value := PropertyValue(props, name);
    if value.Some? then ParseLong(value.value) else Ok(d)
  }

  /** getBooleanValue(name, d): a stored value is true only when it reads "true". */
  function BooleanValue(props: Properties, name: string, d: bool): (r: bool)
    ensures PropertyValue(props, name).None? ==> r == d
    ensures PropertyValue(props, name).Some? ==> (r <==> EqualsIgnoreCase(props[name].value, "true"))
  {
    var value := PropertyValue(props, name);
    if value.Some? then ParseBoolean(value) else d
  }

  // ---------------------------------------------------------------------
  // The three-argument getters
  // ---------------------------------------------------------------------

  /**
   * System.getProperty(propertyName) is reached, and throws
   * IllegalArgumentException, when the environment variable is unset and
   * the property name is empty.
   */
  predicate RejectsEmptyKey(rt: Runtime, envName: string, propertyName: string) {
    envName !in rt.env && propertyName == ""
  }

  /** getString(envName, propertyName, defaultValue). */
  function GetString(rt: Runtime, props: Properties, envName: string, propertyName: string,
                     defaultValue: Option<string>): (r: Result<Option<string>>)
    ensures r.Err? <==> RejectsEmptyKey(rt, envName, propertyName)
    ensures r.Err? ==> r.error == IllegalArgument
    ensures r.Ok? ==> r.value == match FirstPresent(Layers(rt, props, envName, propertyName))
                                 case Some(s) => Some(s)
                                 case None => defaultValue
  {
    FirstOfLayers(rt, props, envName, propertyName);
    if envName in rt.env then Ok(Some(rt.env[envName]))
    else if propertyName == "" then Err(IllegalArgument)
    else if propertyName in rt.systemProperties then Ok(Some(rt.systemProperties[propertyName]))
    else Ok(StringValue(props, propertyName, defaultValue))
  }

  /** getInt(envName, propertyName, defaultValue): NumberFormatException for text that is no int. */
  function GetInt(rt: Runtime, props: Properties, envName: string, propertyName: string,
                  defaultValue: Int32): (r: Result<Int32>)
    ensures RejectsEmptyKey(rt, envName, propertyName) ==> r == Err(IllegalArgument)
    ensures !RejectsEmptyKey(rt, envName, propertyName)
            ==> r == match FirstPresent(Layers(rt, props, envName, propertyName))
                     case Some(s) => ParseInt(s)
                     case None => Ok(defaultValue)
  {
    FirstOfLayers(rt, props, envName, propertyName);
    if envName in rt.env then ParseInt(rt.env[envName])
    else if propertyName == "" then Err(IllegalArgument)
    else if propertyName in rt.systemProperties then ParseInt(rt.systemProperties[propertyName])
    else IntValue(props, propertyName, defaultValue)
  }

  /** getLong(envName, propertyName, defaultValue). */
  function GetLong(rt: Runtime, props: Properties, envName: string, propertyName: string,
                   defaultValue: Int64): (r: Result<Int64>)
    ensures RejectsEmptyKey(rt, envName, propertyName) ==> r == Err(IllegalArgument)
    ensures !RejectsEmptyKey(rt, envName, propertyName)
            ==> r == match FirstPresent(Layers(rt, props, envName, propertyName))
                     case Some(s) => ParseLong(s)
                     case None => Ok(defaultValue)
  {
    FirstOfLayers(rt, props, envName, propertyName);
    if envName in rt.env then ParseLong(rt.env[envName])
    else if propertyName == "" then Err(IllegalArgument)
    else if propertyName in rt.systemProperties then ParseLong(rt.systemProperties[propertyName])
    else LongValue(props, propertyName, defaultValue)
  }

  /** getBoolean(envName, propertyName, defaultValue): throws only for the empty property name. */
  function GetBoolean(rt: Runtime, props: Properties, envName: string, propertyName: string,
                      defaultValue: bool): (r: Result<bool>)
    ensures r.Err? <==> RejectsEmptyKey(rt, envName, propertyName)
    ensures r.Err? ==> r.error == IllegalArgument
    ensures r.Ok? ==> r.value == match FirstPresent(Layers(rt, props, envName, propertyName))
                                 case Some(s) => ParseBoolean(Some(s))
                                 case None => defaultValue
  {
    FirstOfLayers(rt, props, envName, propertyName);
    if envName in rt.env then Ok(ParseBoolean(Some(rt.env[envName])))
    else if propertyName == "" then Err(IllegalArgument)
    else if propertyName in rt.systemProperties then Ok(ParseBoolean(Some(rt.systemProperties[propertyName])))
    else Ok(BooleanValue(props, propertyName, defaultValue))
  }

  // ---------------------------------------------------------------------
  // The one-argument getters, keyed by a ConfVars constant
  // ---------------------------------------------------------------------

  /**
   * getString(c): the configured text, else the string default of c. Every
   * enum constant has a non-empty property name (VarNamesNonEmpty), so the
   * one-argument getters never reach the empty-key exception.
   */
  function GetStringVar(rt: Runtime, props: Properties, c: ConfVar): (r: Option<string>)
    requires c.varName != ""
    ensures c.name in rt.env ==> r == Some(rt.env[c.name])
    ensures c.name !in rt.env && c.varName in rt.systemProperties
            ==> r == Some(rt.systemProperties[c.varName])
    ensures c.name !in rt.env && c.varName !in rt.systemProperties
            ==> r == (if PropertyValue(props, c.varName).Some? then props[c.varName] else c.stringValue)
    ensures r.None? <==> Configured(rt, props, c).None? && c.stringValue.None?
  {
    GetString(rt, props, c.name, c.varName, c.stringValue).value
  }

  /** getInt(c): the configured text parsed as an int, else the int default of c. */
  function GetIntVar(rt: Runtime, props: Properties, c: ConfVar): (r: Result<Int32>)
    requires c.varName != ""
    ensures Configured(rt, props, c).None? ==> r == Ok(c.intValue)
    ensures Configured(rt, props, c).Some? ==> r == ParseInt(Configured(rt, props, c).value)
  {
    GetInt(rt, props, c.name, c.varName, c.intValue)
  }

  /** getLong(c): the configured text parsed as a long, else the long default of c. */
  function GetLongVar(rt: Runtime, props: Properties, c: ConfVar): (r: Result<Int64>)
    requires c.varName != ""
    ensures Configured(rt, props, c).None? ==> r == Ok(c.longValue)
    ensures Configured(rt, props, c).Some? ==> r == ParseLong(Configured(rt, props, c).value)
  {
    GetLong(rt, props, c.name, c.varName, c.longValue)
  }

  /** getBoolean(c): whether the configured text reads "true", else the boolean default of c. */
  function GetBooleanVar(rt: Runtime, props: Properties, c: ConfVar): (r: bool)
    requires c.varName != ""
    ensures Configured(rt, props, c).None? ==> r == c.booleanValue
    ensures Configured(rt, props, c).Some? ==> r == ParseBoolean(Configured(rt, props, c))
  {
    GetBoolean(rt, props, c.name, c.varName, c.booleanValue).value
  }

  // ---------------------------------------------------------------------
  // Lemmas about the lookup
  // ---------------------------------------------------------------------

  /**
   * The environment shadows everything beneath it: whatever the system
   * properties and the site file say, an environment variable decides.
   */
  lemma EnvironmentShadows(rt: Runtime, rt': Runtime, props: Properties, props': Properties, c: ConfVar)
    requires c.varName != "" && c.name in rt.env && rt'.env == rt.env
    ensures GetStringVar(rt, props, c) == GetStringVar(rt', props', c)
    ensures GetIntVar(rt, props, c) == GetIntVar(rt', props', c)
    ensures GetLongVar(rt, props, c) == GetLongVar(rt', props', c)
    ensures GetBooleanVar(rt, props, c) == GetBooleanVar(rt', props', c)
  {
  }

  /**
   * A system property shadows the site file: with no environment variable
   * for c, what the site file says about c does not matter.
   */
  lemma SystemPropertyShadows(rt: Runtime, props: Properties, props': Properties, c: ConfVar)
    requires c.varName != "" && c.name !in rt.env && c.varName in rt.systemProperties
    ensures GetStringVar(rt, props, c) == GetStringVar(rt, props', c)
    ensures GetIntVar(rt, props, c) == GetIntVar(rt, props', c)
    ensures GetLongVar(rt, props, c) == GetLongVar(rt, props', c)
    ensures GetBooleanVar(rt, props, c) == GetBooleanVar(rt, props', c)
  {
  }

  /**
   * A setting depends only on its own environment variable, its own system
   * property and its own entry in the properties map.
   */
  lemma LookupIsLocal(rt: Runtime, rt': Runtime, props: Properties, props': Properties, c: ConfVar)
    requires c.varName != ""
    requires Get(rt.env, c.name) == Get(rt'.env, c.name)
    requires Get(rt.systemProperties, c.varName) == Get(rt'.systemProperties, c.varName)
    requires PropertyValue(props, c.varName) == PropertyValue(props', c.varName)
    ensures GetStringVar(rt, props, c) == GetStringVar(rt', props', c)
    ensures GetIntVar(rt, props, c) == GetIntVar(rt', props', c)
    ensures GetLongVar(rt, props, c) == GetLongVar(rt', props', c)
    ensures GetBooleanVar(rt, props, c) == GetBooleanVar(rt', props', c)
  {
    assert Layers(rt, props, c.name, c.varName) == Layers(rt', props', c.name, c.varName);
  }

  /** An int written out in decimal in the environment is read back unchanged. */
  lemma EnvironmentIntRoundTrip(rt: Runtime, props: Properties, c: ConfVar, n: Int32)
    requires c.varName != "" && c.name in rt.env && rt.env[c.name] == Decimal(n)
    ensures GetIntVar(rt, props, c) == Ok(n)
    ensures GetLongVar(rt, props, c) == Ok(n)
  {
    ParseIntRoundTrip(n);
    ParseLongRoundTrip(n);
  }

  // ---------------------------------------------------------------------
  // Named accessors
  // ---------------------------------------------------------------------

  /** getServerAddress(). */
  function ServerAddress(rt: Runtime, props: Properties): (r: Option<string>)
    ensures Configured(rt, props, SERVER_ADDR).None? ==> r == Some("0.0.0.0")
    ensures Configured(rt, props, SERVER_ADDR).Some? ==> r == Configured(rt, props, SERVER_ADDR)
  {
    GetStringVar(rt, props, SERVER_ADDR)
  }

  /** useSsl(). */
  function UseSsl(rt: Runtime, props: Properties): (r: bool)
    ensures Configured(rt, props, SERVER_SSL).None? ==> !r
    ensures Configured(rt, props, SERVER_SSL).Some? ==> r == ParseBoolean(Configured(rt, props, SERVER_SSL))
  {
    GetBooleanVar(rt, props, SERVER_SSL)
  }

  /** getServerPort(). */
  function ServerPort(rt: Runtime, props: Properties): (r: Result<Int32>)
    ensures Configured(rt, props, SERVER_PORT).None? ==> r == Ok(8080)
    ensures Configured(rt, props, SERVER_PORT).Some?
            ==> r == ParseInt(Configured(rt, props, SERVER_PORT).value)
  {
    GetIntVar(rt, props, SERVER_PORT)
  }

  /** getServerSslPort(). */
  function ServerSslPort(rt: Runtime, props: Properties): (r: Result<Int32>)
    ensures Configured(rt, props, SERVER_SSL_PORT).None? ==> r == Ok(8443)
    ensures Configured(rt, props, SERVER_SSL_PORT).Some?
            ==> r == ParseInt(Configured(rt, props, SERVER_SSL_PORT).value)
  {
    GetIntVar(rt, props, SERVER_SSL_PORT)
  }

  /** useClientAuth(). */
  function UseClientAuth(rt: Runtime, props: Properties): (r: bool)
    ensures Configured(rt, props, SSL_CLIENT_AUTH).None? ==> !r
    ensures Configured(rt, props, SSL_CLIENT_AUTH).Some?
            ==> r == ParseBoolean(Configured(rt, props, SSL_CLIENT_AUTH))
  {
    GetBooleanVar(rt, props, SSL_CLIENT_AUTH)
  }

  /** getJettyRequestHeaderSize(). */
  function JettyRequestHeaderSize(rt: Runtime, props: Properties): (r: Result<Int32>)
    ensures Configured(rt, props, SERVER_JETTY_REQUEST_HEADER_SIZE).None? ==> r == Ok(8192)
    ensures Configured(rt, props, SERVER_JETTY_REQUEST_HEADER_SIZE).Some?
            ==> r == ParseInt(Configured(rt, props, SERVER_JETTY_REQUEST_HEADER_SIZE).value)
  {
    GetIntVar(rt, props, SERVER_JETTY_REQUEST_HEADER_SIZE)
  }

  /** getJdbcDriverClassName(). */
  function JdbcDriverClassName(rt: Runtime, props: Properties): (r: Option<string>)
    ensures Configured(rt, props, JDBC_DRIVERCLASSNAME).None? ==> r == Some("com.mysql.jdbc.Driver")
    ensures Configured(rt, props, JDBC_DRIVERCLASSNAME).Some?
            ==> r == Configured(rt, props, JDBC_DRIVERCLASSNAME)
  {
    GetStringVar(rt, props, JDBC_DRIVERCLASSNAME)
  }

  /** getJdbcUrl(). */
  function JdbcUrl(rt: Runtime, props: Properties): (r: Option<string>)
    ensures Configured(rt, props, JDBC_URL).None? ==> r == JDBC_URL.stringValue && r.Some?
    ensures Configured(rt, props, JDBC_URL).Some? ==> r == Configured(rt, props, JDBC_URL)
  {
    GetStringVar(rt, props, JDBC_URL)
  }

  /** getJdbcUserName(). */
  function JdbcUserName(rt: Runtime, props: Properties): (r: Option<string>)
    ensures Configured(rt, props, JDBC_USERNAME).None? ==> r == Some("submarine")
    ensures Configured(rt, props, JDBC_USERNAME).Some? ==> r == Configured(rt, props, JDBC_USERNAME)
  {
    GetStringVar(rt, props, JDBC_USERNAME)
  }

  /** getJdbcPassword(). */
  function JdbcPassword(rt: Runtime, props: Properties): (r: Option<string>)
    ensures Configured(rt, props, JDBC_PASSWORD).None? ==> r == Some("password")
    ensures Configured(rt, props, JDBC_PASSWORD).Some? ==> r == Configured(rt, props, JDBC_PASSWORD)
  {
    GetStringVar(rt, props, JDBC_PASSWORD)
  }

  // ---------------------------------------------------------------------
  // Key store and trust store
  // ---------------------------------------------------------------------

  /** getKeyStorePath(): never null, "keystore" unless configured. */
  function KeyStorePath(rt: Runtime, props: Properties): (r: Option<string>)
    ensures r.Some?
    ensures Configured(rt, props, SSL_KEYSTORE_PATH).None? ==> r == Some("keystore")
    ensures Configured(rt, props, SSL_KEYSTORE_PATH).Some? ==> r == Configured(rt, props, SSL_KEYSTORE_PATH)
  {
    GetStringVar(rt, props, SSL_KEYSTORE_PATH)
  }

  /** getKeyStoreType(): never null, "JKS" unless configured. */
  function KeyStoreType(rt: Runtime, props: Properties): (r: Option<string>)
    ensures r.Some?
    ensures Configured(rt, props, SERVER_SSL_KEYSTORE_TYPE).None? ==> r == Some("JKS")
    ensures Configured(rt, props, SERVER_SSL_KEYSTORE_TYPE).Some?
            ==> r == Configured(rt, props, SERVER_SSL_KEYSTORE_TYPE)
  {
    GetStringVar(rt, props, SERVER_SSL_KEYSTORE_TYPE)
  }

  /** getKeyStorePassword(): never null, empty unless configured. */
  function KeyStorePassword(rt: Runtime, props: Properties): (r: Option<string>)
    ensures r.Some?
    ensures Configured(rt, props, SERVER_SSL_KEYSTORE_PASSWORD).None? ==> r == Some("")
    ensures Configured(rt, props, SERVER_SSL_KEYSTORE_PASSWORD).Some?
            ==> r == Configured(rt, props, SERVER_SSL_KEYSTORE_PASSWORD)
  {
    GetStringVar(rt, props, SERVER_SSL_KEYSTORE_PASSWORD)
  }

  /**
   * getKeyManagerPassword(): its own setting when one is configured, and the
   * key-store password exactly when none is (its default is null).
   */
  function KeyManagerPassword(rt: Runtime, props: Properties): (r: Option<string>)
    ensures r.Some?
    ensures Configured(rt, props, SERVER_SSL_KEY_MANAGER_PASSWORD).Some?
            ==> r == Configured(rt, props, SERVER_SSL_KEY_MANAGER_PASSWORD)
    ensures Configured(rt, props, SERVER_SSL_KEY_MANAGER_PASSWORD).None?
            ==> r == KeyStorePassword(rt, props)
  {
    var password := GetStringVar(rt, props, SERVER_SSL_KEY_MANAGER_PASSWORD);
    if password.None? then KeyStorePassword(rt, props) else password
  }

  /** getTrustStorePath(): its own setting, else the key-store path. */
  function TrustStorePath(rt: Runtime, props: Properties): (r: Option<string>)
    ensures r.Some?
    ensures Configured(rt, props, SERVER_SSL_TRUSTSTORE_PATH).Some?
            ==> r == Configured(rt, props, SERVER_SSL_TRUSTSTORE_PATH)
    ensures Configured(rt, props, SERVER_SSL_TRUSTSTORE_PATH).None? ==> r == KeyStorePath(rt, props)
  {
    var path := GetStringVar(rt, props, SERVER_SSL_TRUSTSTORE_PATH);
    if path.None? then KeyStorePath(rt, props) else path
  }

  /** getTrustStoreType(): its own setting, else the key-store type. */
  function TrustStoreType(rt: Runtime, props: Properties): (r: Option<string>)
    ensures r.Some?
    ensures Configured(rt, props, SERVER_SSL_TRUSTSTORE_TYPE).Some?
            ==> r == Configured(rt, props, SERVER_SSL_TRUSTSTORE_TYPE)
    ensures Configured(rt, props, SERVER_SSL_TRUSTSTORE_TYPE).None? ==> r == KeyStoreType(rt, props)
  {
    var storeType := GetStringVar(rt, props, SERVER_SSL_TRUSTSTORE_TYPE);
    if storeType.None? then KeyStoreType(rt, props) else storeType
  }

  /** getTrustStorePassword(): its own setting, else the key-store password. */
  function TrustStorePassword(rt: Runtime, props: Properties): (r: Option<string>)
    ensures r.Some?
    ensures Configured(rt, props, SERVER_SSL_TRUSTSTORE_PASSWORD).Some?
            ==> r == Configured(rt, props, SERVER_SSL_TRUSTSTORE_PASSWORD)
    ensures Configured(rt, props, SERVER_SSL_TRUSTSTORE_PASSWORD).None?
            ==> r == KeyStorePassword(rt, props)
  {
    var password := GetStringVar(rt, props, SERVER_SSL_TRUSTSTORE_PASSWORD);
    if password.None? then KeyStorePassword(rt, props) else password
  }

  /**
   * With nothing configured anywhere, the trust store is the key store:
   * path "keystore", type "JKS", and both passwords empty.
   */
  lemma StoreDefaults()
    ensures TrustStorePath(Runtime(map[], map[]), map[]) == Some("keystore")
    ensures TrustStoreType(Runtime(map[], map[]), map[]) == Some("JKS")
    ensures TrustStorePassword(Runtime(map[], map[]), map[]) == Some("")
    ensures KeyManagerPassword(Runtime(map[], map[]), map[]) == Some("")
  {
  }

  /**
   * The fallback is on null only: a trust-store password configured as the
   * empty string is used as it is, even when the key-store password is set.
   */
  lemma EmptyTrustStorePasswordIsKept(rt: Runtime, props: Properties)
    requires SERVER_SSL_TRUSTSTORE_PASSWORD.name in rt.env
    requires rt.env[SERVER_SSL_TRUSTSTORE_PASSWORD.name] == ""
    ensures TrustStorePassword(rt, props) == Some("")
  {
  }
}
