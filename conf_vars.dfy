/**
 * SubmarineConfiguration.ConfVars: every setting the server knows, with its
 * property name, its value type and its built-in default.
 */
module ConfVars {
  import opened Wrappers
  import opened JavaLang

  /** ConfVars.VarType. */
  datatype VarType = STRING | INT | LONG | FLOAT | BOOLEAN

  /** The Class object an enum constant records as varClass. */
  datatype VarClass = StringClass | IntegerClass | FloatClass | BooleanClass

  /**
   * One enum constant. `name` is what Enum.name() returns and names the
   * environment variable; `varName` is the dotted property name. Only the
   * typed default that matches `varType` is meaningful; the others hold the
   * sentinels -1, false and null.
   */
  datatype ConfVar = ConfVar(
    name: string,
    varName: string,
    varClass: VarClass,
    stringValue: Option<string>,
    intValue: Int32,
    longValue: Int64,
    booleanValue: bool,
    varType: VarType)

  /** The tag names the kind of the default, and every other typed default is its sentinel. */
  predicate Tagged(c: ConfVar) {
    match c.varType
    case STRING =>
      c.varClass == StringClass && c.intValue == -1 && c.longValue == -1 && !c.booleanValue
    case INT =>
      c.varClass == IntegerClass && c.stringValue.None? && c.longValue == -1 && !c.booleanValue
    case LONG =>
      c.varClass == IntegerClass && c.stringValue.None? && c.intValue == -1 && !c.booleanValue
    case BOOLEAN =>
      c.varClass == BooleanClass && c.stringValue.None? && c.intValue == -1 && c.longValue == -1
    case FLOAT =>
      c.varClass == FloatClass && c.stringValue.None? && c.intValue == -1 && c.longValue == -1
      && !c.booleanValue
  }

  /** ConfVars(String varName, String varValue). */
  function StringVar(name: string, varName: string, varValue: Option<string>): (c: ConfVar)
    ensures Tagged(c) && c.varType == STRING
    ensures c.name == name && c.varName == varName && c.stringValue == varValue
  {
    ConfVar(name, varName, StringClass, varValue, -1, -1, false, STRING)
  }

  /** ConfVars(String varName, int intValue). */
  function IntVar(name: string, varName: string, intValue: Int32): (c: ConfVar)
    ensures Tagged(c) && c.varType == INT
    ensures c.name == name && c.varName == varName && c.intValue == intValue
  {
    ConfVar(name, varName, IntegerClass, None, intValue, -1, false, INT)
  }

  /** ConfVars(String varName, long longValue); the source records Integer.class for it too. */
  function LongVar(name: string, varName: string, longValue: Int64): (c: ConfVar)
    ensures Tagged(c) && c.varType == LONG
    ensures c.name == name && c.varName == varName && c.longValue == longValue
  {
    ConfVar(name, varName, IntegerClass, None, -1, longValue, false, LONG)
  }

  /** ConfVars(String varName, boolean booleanValue). */
  function BooleanVar(name: string, varName: string, booleanValue: bool): (c: ConfVar)
    ensures Tagged(c) && c.varType == BOOLEAN
    ensures c.name == name && c.varName == varName && c.booleanValue == booleanValue
  {
    ConfVar(name, varName, BooleanClass, None, -1, -1, booleanValue, BOOLEAN)
  }

  // The enum constants, in declaration order.

  const SERVER_ADDR := StringVar("SERVER_ADDR", "submarine.server.addr", Some("0.0.0.0"))
  const SERVER_PORT := IntVar("SERVER_PORT", "submarine.server.port", 8080)
  const SERVER_SSL := BooleanVar("SERVER_SSL", "submarine.server.ssl", false)
  const SERVER_SSL_PORT := IntVar("SERVER_SSL_PORT", "submarine.server.ssl.port", 8443)
  const SERVER_JETTY_THREAD_POOL_MAX :=
    IntVar("SERVER_JETTY_THREAD_POOL_MAX", "submarine.server.jetty.thread.pool.max", 400)
  const SERVER_JETTY_THREAD_POOL_MIN :=
    IntVar("SERVER_JETTY_THREAD_POOL_MIN", "submarine.server.jetty.thread.pool.min", 8)
  const SERVER_JETTY_THREAD_POOL_TIMEOUT :=
    IntVar("SERVER_JETTY_THREAD_POOL_TIMEOUT", "submarine.server.jetty.thread.pool.timeout", 30)
  const SERVER_JETTY_REQUEST_HEADER_SIZE :=
    IntVar("SERVER_JETTY_REQUEST_HEADER_SIZE", "submarine.server.jetty.request.header.size", 8192)
  const SSL_CLIENT_AUTH := BooleanVar("SSL_CLIENT_AUTH", "submarine.ssl.client.auth", false)
  const SSL_KEYSTORE_PATH :=
    StringVar("SSL_KEYSTORE_PATH", "submarine.ssl.keystore.path", Some("keystore"))
  const SERVER_SSL_KEYSTORE_TYPE :=
    StringVar("SERVER_SSL_KEYSTORE_TYPE", "submarine.ssl.keystore.type", Some("JKS"))
  const SERVER_SSL_KEYSTORE_PASSWORD :=
    StringVar("SERVER_SSL_KEYSTORE_PASSWORD", "submarine.ssl.keystore.password", Some(""))
  const SERVER_SSL_KEY_MANAGER_PASSWORD :=
    StringVar("SERVER_SSL_KEY_MANAGER_PASSWORD", "submarine.ssl.key.manager.password", None)
  const SERVER_SSL_TRUSTSTORE_PATH :=
    StringVar("SERVER_SSL_TRUSTSTORE_PATH", "submarine.ssl.truststore.path", None)
  const SERVER_SSL_TRUSTSTORE_TYPE :=
    StringVar("SERVER_SSL_TRUSTSTORE_TYPE", "submarine.ssl.truststore.type", None)
  const SERVER_SSL_TRUSTSTORE_PASSWORD :=
    StringVar("SERVER_SSL_TRUSTSTORE_PASSWORD", "submarine.ssl.truststore.password", None)
  const JDBC_DRIVERCLASSNAME :=
    StringVar("JDBC_DRIVERCLASSNAME", "jdbc.driverClassName", Some("com.mysql.jdbc.Driver"))
  const JDBC_URL := StringVar("JDBC_URL", "jdbc.url", Some(
    "jdbc:mysql://127.0.0.1:3306/submarineDB"
    + "?useUnicode=true&amp;characterEncoding=UTF-8&amp;autoReconnect=true&amp;"
    + "failOverReadOnly=false&amp;zeroDateTimeBehavior=convertToNull&amp;useSSL=false"))
  const JDBC_USERNAME := StringVar("JDBC_USERNAME", "jdbc.username", Some("submarine"))
  const JDBC_PASSWORD := StringVar("JDBC_PASSWORD", "jdbc.password", Some("password"))
  const SUBMARINE_WAR := StringVar("SUBMARINE_WAR", "submarine.war", Some("submarine-web/dist"))
  const SUBMARINE_WAR_TEMPDIR :=
    StringVar("SUBMARINE_WAR_TEMPDIR", "submarine.war.tempdir", Some("webapps"))

  /** ConfVars.values(): the 22 constants, SERVER_ADDR first and SUBMARINE_WAR_TEMPDIR last. */
  function Values(): (r: seq<ConfVar>)
    ensures |r| == 22 && r[0] == SERVER_ADDR && r[21] == SUBMARINE_WAR_TEMPDIR
    ensures r[17] == JDBC_URL && r[18] == JDBC_USERNAME
  {
    [SERVER_ADDR, SERVER_PORT, SERVER_SSL, SERVER_SSL_PORT,
     SERVER_JETTY_THREAD_POOL_MAX, SERVER_JETTY_THREAD_POOL_MIN,
     SERVER_JETTY_THREAD_POOL_TIMEOUT, SERVER_JETTY_REQUEST_HEADER_SIZE,
     SSL_CLIENT_AUTH, SSL_KEYSTORE_PATH, SERVER_SSL_KEYSTORE_TYPE,
     SERVER_SSL_KEYSTORE_PASSWORD, SERVER_SSL_KEY_MANAGER_PASSWORD,
     SERVER_SSL_TRUSTSTORE_PATH, SERVER_SSL_TRUSTSTORE_TYPE,
     SERVER_SSL_TRUSTSTORE_PASSWORD, JDBC_DRIVERCLASSNAME, JDBC_URL,
     JDBC_USERNAME, JDBC_PASSWORD, SUBMARINE_WAR, SUBMARINE_WAR_TEMPDIR]
  }

  /** Every constant is built by the constructor its tag names. */
  lemma ValuesTagged()
    ensures forall c :: c in Values() ==> Tagged(c)
  {
  }

  /** No two constants share an enum name: each setting has its own environment variable. */
  lemma NamesDistinct()
    ensures forall i, j :: 0 <= i < j < |Values()| ==> Values()[i].name != Values()[j].name
  {
  }

  /** Every constant has a property name, so System.getProperty never sees the empty key. */
  lemma VarNamesNonEmpty()
    ensures forall i :: 0 <= i < |Values()| ==> Values()[i].varName != ""
  {
  }

  /** No two constants share a property name: each setting has its own property key. */
  lemma VarNamesDistinct()
    ensures forall i, j :: 0 <= i < j < |Values()| ==> Values()[i].varName != Values()[j].varName
  {
  }

  // ---------------------------------------------------------------------
  // VarType.checkType / VarType.isType
  // ---------------------------------------------------------------------

  /**
   * VarType.checkType(value): Pass, or the exception it throws. `floatSyntax`
   * stands for the strings Float.valueOf accepts.
   */
  function CheckType(t: VarType, value: Option<string>, floatSyntax: string -> bool): (r: Result<()>)
    ensures t == STRING || t == BOOLEAN ==> r == Ok(())
    ensures t == INT ==> (r.Ok? <==> value.Some? && ParseInt(value.value).Ok?)
    ensures t == LONG ==> (r.Ok? <==> value.Some? && ParseLong(value.value).Ok?)
    ensures t == FLOAT ==> (r.Ok? <==> value.Some? && floatSyntax(value.value))
    ensures t == FLOAT && value.None? ==> r == Err(NullPointer)
    ensures r.Err? && !(t == FLOAT && value.None?) ==> r.error == NumberFormat
  {
    match t
    case STRING => Ok(())
    case INT =>
      if value.None? then Err(NumberFormat)
      else (match ParseInt(value.value) case Ok(_) => Ok(()) case Err(e) => Err(e))
    case LONG =>
      if value.None? then Err(NumberFormat)
      else (match ParseLong(value.value) case Ok(_) => Ok(()) case Err(e) => Err(e))
    case FLOAT =>
      if value.None? then Err(NullPointer)
      else if floatSyntax(value.value) then Ok(()) else Err(NumberFormat)
    case BOOLEAN => Ok(())
  }

  /** VarType.isType(value): checkType did not throw. */
  function IsType(t: VarType, value: Option<string>, floatSyntax: string -> bool): (r: bool)
    ensures t == STRING || t == BOOLEAN ==> r
    ensures t == INT ==> (r <==> value.Some? && ParseInt(value.value).Ok?)
    ensures t == LONG ==> (r <==> value.Some? && ParseLong(value.value).Ok?)
    ensures t == FLOAT ==> (r <==> value.Some? && floatSyntax(value.value))
  {
    CheckType(t, value, floatSyntax).Ok?
  }

  /** Every Java int, written out in decimal, passes the INT and LONG checks. */
  lemma IsTypeIntAcceptsRendered(n: Int32, floatSyntax: string -> bool)
    ensures IsType(INT, Some(Decimal(n)), floatSyntax)
    ensures IsType(LONG, Some(Decimal(n)), floatSyntax)
  {
    ParseIntRoundTrip(n);
    ParseLongRoundTrip(n);
  }
}
