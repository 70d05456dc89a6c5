# Submarine server configuration lookup, in Dafny

This project models `SubmarineConfiguration`, the class the Submarine server uses to read its
settings, and proves properties of the model.

Every setting is a `ConfVars` enum constant. A constant has an enum name (used as the name of
an environment variable), a dotted property name, a value type and a built-in default. A
getter takes the first value it finds, in this order:

1. the environment variable;
2. the JVM system property;
3. the `properties` map filled from `submarine-site.xml`;
4. the default.

Integer and long getters parse the text they find and can throw `NumberFormatException`.
Boolean getters never throw on the text they find: only "true", in any letter case, reads as
true. Any three-argument getter throws `IllegalArgumentException` when the environment
variable is unset and the property name is empty, because `System.getProperty("")` rejects
the empty key. Every enum constant has a non-empty property name, so the one-argument
getters never take that path. The key-manager
password and the trust-store path, type and password fall back to the matching key-store
setting when their own lookup yields null. `getRelativeDir` leaves absolute paths alone. An
absolute path starts with the separator or is a Windows drive path. Any other path is put
under the configuration's base directory.

How the model is laid out:

- `wrappers.dfy` (`Wrappers`): Java `null` as `Option.None`. A thrown exception is
  `Result.Err`, with the exception's kind.
- `java_lang.dfy` (`JavaLang`): the platform calls the code depends on, written out:
  - `Integer.parseInt` and `Long.parseLong`, in radix 10, with the exact 32- and 64-bit
    ranges;
  - `Boolean.parseBoolean`;
  - `startsWith`, `StringUtils.isEmpty`;
  - the line terminators that a regular-expression `.` does not match.
- `conf_vars.dfy` (`ConfVars`): the enum as a datatype. It has all 22 constants in
  declaration order, and `VarType.checkType` and `isType`. It also has the String, int, long
  and boolean constructors. The constants use only the String, int and boolean ones; the
  long constructor is modelled but no constant calls it.
- `settings.dfy` (`Settings`): the lookup, as pure functions of three things:
  - a `Runtime` (the environment and the system properties, as maps);
  - the `properties` map;
  - the constant being looked up.

  `Layers` and `FirstPresent` are a reference definition of the precedence: a list of
  layers and its first non-null entry. Every getter is proved against this definition.
- `paths.dfy` (`Paths`): `isWindowsPath`, the two `getRelativeDir` forms, and their
  properties.
- `site_properties.dfy` (`SiteProperties`): the class `SubmarineConfiguration`, which holds
  the `properties` field. Its methods are `initProperties`, as a loop proved against the
  function `Load`, and the three setters for tests. Beside them are lemmas about `Load`: which
  keys end up in the map, that the last node wins, and that other keys are left alone. The
  method `SetJdbcUrlClient` models no source member. It is a usage example: a caller sets
  the URL, reads it back, and sees the user name unchanged.

Two details of the source are modelled as written:

- The `long` constructor of `ConfVars` records `Integer.class` as the class of its value.
- The default JDBC URL contains the literal text `&amp;` between its query parameters,
  where a plain `&` was probably meant.

## Model

| member | source | states |
|---|---|---|
| `JavaLang.ParseDecimal` | submarine-server/src/main/java/org/apache/submarine/server/SubmarineConfiguration.java:302-311 | radix-10 parsing fails only with NumberFormatException, and any number it returns lies in the requested range; which texts it accepts is stated by `ParseDecimalSound` and `ParseDecimalComplete` |
| `JavaLang.ParseDecimalSound` | submarine-server/src/main/java/org/apache/submarine/server/SubmarineConfiguration.java:302-311 | every text the parser accepts is an optional sign, leading zeros and the digits of the returned value; a negative value carries the '-' sign and a positive one does not |
| `JavaLang.ParseDecimalComplete` | submarine-server/src/main/java/org/apache/submarine/server/SubmarineConfiguration.java:302-311 | every text made of an optional sign, leading zeros and the digits of an in-range number is accepted, with that number as the result |
| `JavaLang.ParseInt` | submarine-server/src/main/java/org/apache/submarine/server/SubmarineConfiguration.java:251-257 | `Integer.parseInt` returns v exactly when the text writes v (sign, leading zeros, digits) and v is a 32-bit int; every other text throws NumberFormatException |
| `JavaLang.ParseLong` | submarine-server/src/main/java/org/apache/submarine/server/SubmarineConfiguration.java:259-265 | `Long.parseLong` returns v exactly when the text writes v (sign, leading zeros, digits) and v is a 64-bit long; every other text throws NumberFormatException |
| `JavaLang.ParseDecimalRoundTrip` | submarine-server/src/main/java/org/apache/submarine/server/SubmarineConfiguration.java:302-311 | every in-range number, written in decimal, parses back to itself |
| `JavaLang.ParseIntRoundTrip` | submarine-server/src/main/java/org/apache/submarine/server/SubmarineConfiguration.java:302-311 | every Java int, written in decimal, is read back unchanged by `Integer.parseInt` |
| `JavaLang.ParseLongRoundTrip` | submarine-server/src/main/java/org/apache/submarine/server/SubmarineConfiguration.java:317-326 | every Java long, written in decimal, is read back unchanged by `Long.parseLong` |
| `JavaLang.ParseBoolean` | submarine-server/src/main/java/org/apache/submarine/server/SubmarineConfiguration.java:346-355 | `Boolean.parseBoolean` is true exactly for a four-letter t/r/u/e string in any case, and false for null |
| `ConfVars.StringVar` | submarine-server/src/main/java/org/apache/submarine/server/SubmarineConfiguration.java:394-403 | the String constructor tags STRING, keeps the given default and leaves int and long at -1 and the boolean false |
| `ConfVars.IntVar` | submarine-server/src/main/java/org/apache/submarine/server/SubmarineConfiguration.java:405-414 | the int constructor tags INT, keeps the int default, and leaves the string null, the long -1 and the boolean false |
| `ConfVars.LongVar` | submarine-server/src/main/java/org/apache/submarine/server/SubmarineConfiguration.java:416-425 | the long constructor tags LONG, keeps the long default, and leaves the string null, the int -1 and the boolean false |
| `ConfVars.BooleanVar` | submarine-server/src/main/java/org/apache/submarine/server/SubmarineConfiguration.java:438-447 | the boolean constructor tags BOOLEAN, keeps the boolean default, and leaves the string null and the int and long -1 |
| `ConfVars.ValuesTagged` | submarine-server/src/main/java/org/apache/submarine/server/SubmarineConfiguration.java:357-381 | every enum constant satisfies the constructor invariant of its own type tag |
| `ConfVars.NamesDistinct` | submarine-server/src/main/java/org/apache/submarine/server/SubmarineConfiguration.java:357-381 | no two constants share an enum name, so no two share an environment variable |
| `ConfVars.VarNamesDistinct` | submarine-server/src/main/java/org/apache/submarine/server/SubmarineConfiguration.java:357-381 | no two constants share a property name, so no two share a map key |
| `ConfVars.VarNamesNonEmpty` | submarine-server/src/main/java/org/apache/submarine/server/SubmarineConfiguration.java:357-381 | every constant has a non-empty property name |
| `ConfVars.Values` | submarine-server/src/main/java/org/apache/submarine/server/SubmarineConfiguration.java:357-381 | `values()` lists the 22 constants in declaration order, from SERVER_ADDR to SUBMARINE_WAR_TEMPDIR |
| `ConfVars.CheckType` | submarine-server/src/main/java/org/apache/submarine/server/SubmarineConfiguration.java:482-510 | STRING and BOOLEAN never throw; INT and LONG throw NumberFormatException unless the value is non-null and parses; FLOAT throws NullPointerException for null and NumberFormatException for text that is not float syntax |
| `ConfVars.IsType` | submarine-server/src/main/java/org/apache/submarine/server/SubmarineConfiguration.java:482-520 | `isType` is always true for STRING and BOOLEAN; for INT and LONG it is true iff the value is non-null and parses; for FLOAT iff the value is non-null and is float syntax |
| `ConfVars.IsTypeIntAcceptsRendered` | submarine-server/src/main/java/org/apache/submarine/server/SubmarineConfiguration.java:487-498 | the decimal text of any Java int passes the INT and the LONG check |
| `Settings.FirstPresent` | submarine-server/src/main/java/org/apache/submarine/server/SubmarineConfiguration.java:287-296 | the reference precedence: the result is null iff every layer is null; otherwise it is the earliest non-null layer |
| `Settings.FirstOfLayers` | submarine-server/src/main/java/org/apache/submarine/server/SubmarineConfiguration.java:287-296 | on the three layers, the first present value is the environment's, else the system property's, else the map's non-null entry |
| `Settings.StringValue` | submarine-server/src/main/java/org/apache/submarine/server/SubmarineConfiguration.java:243-249 | the result is the map's non-null entry for the name, and the default otherwise; it is null only when the default is |
| `Settings.IntValue` | submarine-server/src/main/java/org/apache/submarine/server/SubmarineConfiguration.java:251-257 | with no non-null entry the result is the default; otherwise it is `Integer.parseInt` of the entry, so it succeeds iff the entry parses as an int; any failure is NumberFormatException |
| `Settings.LongValue` | submarine-server/src/main/java/org/apache/submarine/server/SubmarineConfiguration.java:259-265 | with no non-null entry the result is the default; otherwise it is `Long.parseLong` of the entry, so it succeeds iff the entry parses as a long |
| `Settings.BooleanValue` | submarine-server/src/main/java/org/apache/submarine/server/SubmarineConfiguration.java:275-281 | with no non-null entry the result is the default; otherwise the result is whether the entry equals "true" ignoring case |
| `Settings.GetString` | submarine-server/src/main/java/org/apache/submarine/server/SubmarineConfiguration.java:287-296 | IllegalArgumentException exactly when the environment variable is unset and the property name is empty; otherwise the first present layer (environment, system property, map), else the default |
| `Settings.GetInt` | submarine-server/src/main/java/org/apache/submarine/server/SubmarineConfiguration.java:302-311 | IllegalArgumentException when the environment variable is unset and the property name is empty; otherwise `Integer.parseInt` of the first present layer, else the default |
| `Settings.GetLong` | submarine-server/src/main/java/org/apache/submarine/server/SubmarineConfiguration.java:317-326 | IllegalArgumentException when the environment variable is unset and the property name is empty; otherwise `Long.parseLong` of the first present layer, else the default |
| `Settings.GetBoolean` | submarine-server/src/main/java/org/apache/submarine/server/SubmarineConfiguration.java:346-355 | IllegalArgumentException exactly when the environment variable is unset and the property name is empty; otherwise `Boolean.parseBoolean` of the first present layer, else the default |
| `Settings.GetStringVar` | submarine-server/src/main/java/org/apache/submarine/server/SubmarineConfiguration.java:283-285 | precedence for a constant with a non-empty property name, as every enum constant has: the environment variable, else the system property, else the non-null map entry, else the string default; null exactly when nothing is configured and the default is null |
| `Settings.GetIntVar` | submarine-server/src/main/java/org/apache/submarine/server/SubmarineConfiguration.java:298-300 | the configured text, parsed as an int; with nothing configured, the constant's int default |
| `Settings.GetLongVar` | submarine-server/src/main/java/org/apache/submarine/server/SubmarineConfiguration.java:313-315 | the configured text, parsed as a long; with nothing configured, the constant's long default |
| `Settings.GetBooleanVar` | submarine-server/src/main/java/org/apache/submarine/server/SubmarineConfiguration.java:342-344 | `parseBoolean` of the configured text; with nothing configured, the constant's boolean default |
| `Settings.EnvironmentShadows` | submarine-server/src/main/java/org/apache/submarine/server/SubmarineConfiguration.java:288-290 | once the environment variable is set, no system property and no map entry changes any getter's result |
| `Settings.SystemPropertyShadows` | submarine-server/src/main/java/org/apache/submarine/server/SubmarineConfiguration.java:291-293 | with no environment variable and a system property set, no map entry changes any getter's result |
| `Settings.LookupIsLocal` | submarine-server/src/main/java/org/apache/submarine/server/SubmarineConfiguration.java:283-355 | a setting depends only on its own environment variable, system property and map entry |
| `Settings.EnvironmentIntRoundTrip` | submarine-server/src/main/java/org/apache/submarine/server/SubmarineConfiguration.java:302-305 | an int written in decimal into the environment variable is what `getInt` and `getLong` return |
| `Settings.ServerAddress` | submarine-server/src/main/java/org/apache/submarine/server/SubmarineConfiguration.java:124-126 | the configured address, else "0.0.0.0" |
| `Settings.UseSsl` | submarine-server/src/main/java/org/apache/submarine/server/SubmarineConfiguration.java:128-130 | the configured flag read by `parseBoolean`, else false |
| `Settings.ServerPort` | submarine-server/src/main/java/org/apache/submarine/server/SubmarineConfiguration.java:132-134 | the configured port parsed as an int, else 8080 |
| `Settings.ServerSslPort` | submarine-server/src/main/java/org/apache/submarine/server/SubmarineConfiguration.java:136-138 | the configured SSL port parsed as an int, else 8443 |
| `Settings.UseClientAuth` | submarine-server/src/main/java/org/apache/submarine/server/SubmarineConfiguration.java:162-164 | the configured flag read by `parseBoolean`, else false |
| `Settings.JettyRequestHeaderSize` | submarine-server/src/main/java/org/apache/submarine/server/SubmarineConfiguration.java:192-194 | the configured size parsed as an int, else 8192 |
| `Settings.JdbcDriverClassName` | submarine-server/src/main/java/org/apache/submarine/server/SubmarineConfiguration.java:212-214 | the configured driver class, else "com.mysql.jdbc.Driver" |
| `Settings.JdbcUrl` | submarine-server/src/main/java/org/apache/submarine/server/SubmarineConfiguration.java:216-218 | the configured URL, else the non-null built-in MySQL URL |
| `Settings.JdbcUserName` | submarine-server/src/main/java/org/apache/submarine/server/SubmarineConfiguration.java:225-227 | the configured user name, else "submarine" |
| `Settings.JdbcPassword` | submarine-server/src/main/java/org/apache/submarine/server/SubmarineConfiguration.java:234-236 | the configured password, else "password" |
| `Settings.KeyStorePath` | submarine-server/src/main/java/org/apache/submarine/server/SubmarineConfiguration.java:140-143 | never null: the configured path, else "keystore" |
| `Settings.KeyStoreType` | submarine-server/src/main/java/org/apache/submarine/server/SubmarineConfiguration.java:145-147 | never null: the configured type, else "JKS" |
| `Settings.KeyStorePassword` | submarine-server/src/main/java/org/apache/submarine/server/SubmarineConfiguration.java:149-151 | never null: the configured password, else the empty string |
| `Settings.KeyManagerPassword` | submarine-server/src/main/java/org/apache/submarine/server/SubmarineConfiguration.java:153-160 | never null; its own configured value when there is one, and the key-store password exactly when there is none |
| `Settings.TrustStorePath` | submarine-server/src/main/java/org/apache/submarine/server/SubmarineConfiguration.java:166-172 | never null; its own configured value, else the key-store path |
| `Settings.TrustStoreType` | submarine-server/src/main/java/org/apache/submarine/server/SubmarineConfiguration.java:174-181 | never null; its own configured value, else the key-store type |
| `Settings.TrustStorePassword` | submarine-server/src/main/java/org/apache/submarine/server/SubmarineConfiguration.java:183-190 | never null; its own configured value, else the key-store password |
| `Settings.StoreDefaults` | submarine-server/src/main/java/org/apache/submarine/server/SubmarineConfiguration.java:367-373 | with nothing configured, the trust store is "keystore" of type "JKS", and the trust-store and key-manager passwords are empty |
| `Settings.EmptyTrustStorePasswordIsKept` | submarine-server/src/main/java/org/apache/submarine/server/SubmarineConfiguration.java:183-190 | the fallback fires on null only: a trust-store password set to "" stays "" |
| `Paths.DotStar` | submarine-server/src/main/java/org/apache/submarine/server/SubmarineConfiguration.java:208-210 | `.*` matches a whole string iff the string contains no line terminator |
| `Paths.IsWindowsPath` | submarine-server/src/main/java/org/apache/submarine/server/SubmarineConfiguration.java:208-210 | a null path throws NullPointerException; otherwise true iff the path is an ASCII letter, ':', '\' and then a remainder without line terminators |
| `Paths.RelativeDir` | submarine-server/src/main/java/org/apache/submarine/server/SubmarineConfiguration.java:200-206 | null throws; a path that starts with the separator or is a Windows path is returned unchanged; any other path becomes base + separator + path; the result always ends with the path |
| `Paths.RelativeDirOf` | submarine-server/src/main/java/org/apache/submarine/server/SubmarineConfiguration.java:196-198 | throws NullPointerException exactly when the constant's setting is null; a setting that starts with the separator or is a Windows path is returned as it is; any other setting becomes base + separator + setting |
| `Paths.RelativeDirIdempotent` | submarine-server/src/main/java/org/apache/submarine/server/SubmarineConfiguration.java:200-206 | when the base directory starts with the separator, resolving a resolved path changes nothing |
| `Paths.UnsetTrustStorePathThrows` | submarine-server/src/main/java/org/apache/submarine/server/SubmarineConfiguration.java:371 | `getRelativeDir(SERVER_SSL_TRUSTSTORE_PATH)` with nothing configured throws NullPointerException |
| `Paths.WarTempDirDefault` | submarine-server/src/main/java/org/apache/submarine/server/SubmarineConfiguration.java:381 | with "/" as separator and nothing configured, the web-application temp directory is base + "/webapps" |
| `SiteProperties.Load` | submarine-server/src/main/java/org/apache/submarine/server/SubmarineConfiguration.java:51-57 | the pass reaches the end iff every node has both a name child and a value child |
| `SiteProperties.LoadKeys` | submarine-server/src/main/java/org/apache/submarine/server/SubmarineConfiguration.java:51-57 | after a complete pass, the keys are the old keys plus the non-null, non-empty names of the nodes |
| `SiteProperties.LoadKeepsUnnamed` | submarine-server/src/main/java/org/apache/submarine/server/SubmarineConfiguration.java:54-56 | a key that no node names keeps its old entry, or stays absent, even when the pass stops early |
| `SiteProperties.LoadLastWins` | submarine-server/src/main/java/org/apache/submarine/server/SubmarineConfiguration.java:51-57 | when several nodes share a name, the value of the last of them is stored |
| `SiteProperties.OverwriteThenRead` | submarine-server/src/main/java/org/apache/submarine/server/SubmarineConfiguration.java:221-223 | with no environment or system-property override, the stored value is what `getString` returns; a stored null gives the default |
| `SiteProperties.OverwriteLeavesOthers` | submarine-server/src/main/java/org/apache/submarine/server/SubmarineConfiguration.java:220-241 | storing under one constant's key changes no other constant's string, int, long or boolean setting |
| `SiteProperties.SubmarineConfiguration.constructor` | submarine-server/src/main/java/org/apache/submarine/server/SubmarineConfiguration.java:38 | a new object starts with an empty properties map |
| `SiteProperties.SubmarineConfiguration.InitProperties` | submarine-server/src/main/java/org/apache/submarine/server/SubmarineConfiguration.java:46-58 | a null or empty node list leaves the map unchanged; otherwise the new map and the completion flag are those of `Load` on the old map |
| `SiteProperties.SubmarineConfiguration.SetJdbcUrl` | submarine-server/src/main/java/org/apache/submarine/server/SubmarineConfiguration.java:220-223 | only the "jdbc.url" entry changes; with no override, `getJdbcUrl` then returns the new URL, or the default for null |
| `SiteProperties.SubmarineConfiguration.SetJdbcUserName` | submarine-server/src/main/java/org/apache/submarine/server/SubmarineConfiguration.java:229-232 | only the "jdbc.username" entry changes; with no override, `getJdbcUserName` then returns the new name, or the default for null |
| `SiteProperties.SubmarineConfiguration.SetJdbcPassword` | submarine-server/src/main/java/org/apache/submarine/server/SubmarineConfiguration.java:238-241 | only the "jdbc.password" entry changes; with no override, `getJdbcPassword` then returns the new password, or the default for null |

## Left out

- `create()`: probing class loaders for `submarine-site.xml`, the cached singleton, and logging. These are I/O and global state.
- XML loading through commons-configuration: `load(url)`, `getRootNode()`, and `setDelimiterParsingDisabled`. The root's children are an input (`ConfigNode` values). The cast of a node's value to `String` is taken to succeed.
- The no-argument constructor, which copies the defaults into the inherited XML store with `setProperty`. The getters modelled here never read that store.
- The inherited `getString("./")` used by `getRelativeDir`. It is the `base` parameter, and it may be null, which is rendered as "null" as in Java string concatenation.
- `File.separator`: the `separator` parameter.
- Floating point: `getFloat` (both forms), `getFloatValue`, the float constructor of `ConfVars`, and its `floatValue` field. `Float.valueOf`, which `isType(FLOAT)` uses, is the `floatSyntax` parameter.
- `VarType.typeString()` and `ConfVars.getVarClass()`. Nothing in the modelled code calls them.
- Logging inside `isType`.
- Null names passed to the public three-argument getters. There, `System.getenv(null)` throws. Names are non-null strings here. The empty property name is modelled: it throws `IllegalArgumentException`.
- `JavaLang.ParseDecimal`: accepts only the ASCII digits '0' to '9'. `Character.digit` also accepts other Unicode decimal digits, so `Integer.parseInt` and `Long.parseLong` accept more strings than they do here.
- `JavaLang.ParseBoolean`: folds case for ASCII letters only. No other character folds to the letters of "true", so this changes no result.
- Concurrent changes to the environment or system properties between the two reads in each getter. A `Runtime` is one snapshot.
- The REST resources, the Jetty bootstrap in `SubmarineServer`, the entities and the dictionary service. They are pass-throughs to a database layer or container plumbing.
- The department-tree builder `DepartmentUtil`, which `SysDeptRestApi` calls. It is not part of this model because its source is not among the files modelled.
