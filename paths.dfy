/**
 * SubmarineConfiguration.isWindowsPath and getRelativeDir. File.separator
 * is a parameter, and so is the configuration's base directory (what the
 * inherited XMLConfiguration.getString("./") returns, possibly null).
 */
module Paths {
  import opened Wrappers
  import opened JavaLang
  import opened ConfVars
  import opened Settings

  /** What the regular expression `.*` matches in full: no line terminator. */
  function DotStar(s: string): (r: bool)
    ensures r <==> forall i :: 0 <= i < |s| ==> !IsLineTerminator(s[i])
  {
    if s == [] then true
    else
      var rest := DotStar(s[1..]);
      assert forall i :: 1 <= i < |s| ==> s[1..][i - 1] == s[i];
      !IsLineTerminator(s[0]) && rest
  }

  /** String.matches("^[A-Za-z]:\\\\.*") on a non-null string: a drive letter, ':', '\', then one line. */
  function MatchesDrivePattern(path: string): bool {
    |path| >= 3 && IsAsciiLetter(path[0]) && path[1] == ':' && path[2] == '\\' && DotStar(path[3..])
  }

  /** isWindowsPath(path): a null path throws NullPointerException. */
  function IsWindowsPath(path: Option<string>): (r: Result<bool>)
    ensures path.None? <==> r == Err(NullPointer)
    ensures path.Some? ==> r.Ok? && (r.value <==>
              |path.value| >= 3 && IsAsciiLetter(path.value[0])
              && path.value[1] == ':' && path.value[2] == '\\'
              && forall i :: 3 <= i < |path.value| ==> !IsLineTerminator(path.value[i]))
  {
    match path
    case None => Err(NullPointer)
    case Some(p) =>
      assert |p| >= 3 ==> forall i :: 3 <= i < |p| ==> p[3..][i - 3] == p[i];
      Ok(MatchesDrivePattern(p))
  }

  /**
   * getRelativeDir(path): an absolute path (leading separator or drive
   * letter) is returned as it is; any other path is put under the base
   * directory. `path != null && path.startsWith(sep) || isWindowsPath(path)`
   * reaches isWindowsPath(null) for a null path, which throws.
   */
  function RelativeDir(path: Option<string>, separator: string, base: Option<string>): (r: Result<string>)
    ensures path.None? ==> r == Err(NullPointer)
    ensures path.Some? ==> r.Ok?
    ensures path.Some? && (StartsWith(path.value, separator) || MatchesDrivePattern(path.value))
            ==> r.value == path.value
    ensures path.Some? && !StartsWith(path.value, separator) && !MatchesDrivePattern(path.value)
            ==> r.value == Render(base) + separator + path.value
    ensures r.Ok? ==> |path.value| <= |r.value| && r.value[|r.value| - |path.value|..] == path.value
  {
    if path.Some? && StartsWith(path.value, separator) then Ok(path.value)
    else
      match IsWindowsPath(path)
      case Err(e) => Err(e)
      case Ok(windows) =>
        if windows then Ok(path.value) else Ok(Render(base) + separator + path.value)
  }

  /** getRelativeDir(ConfVars c): the setting of c, resolved as a directory. */
  function RelativeDirOf(rt: Runtime, props: Properties, c: ConfVar, separator: string,
                         base: Option<string>): (r: Result<string>)
    requires c.varName != ""
    ensures r.Err? <==> GetStringVar(rt, props, c).None?
    ensures r.Err? ==> r.error == NullPointer
    ensures var v := GetStringVar(rt, props, c);
            v.Some? && (StartsWith(v.value, separator) || MatchesDrivePattern(v.value))
            ==> r == Ok(v.value)
    ensures var v := GetStringVar(rt, props, c);
            v.Some? && !StartsWith(v.value, separator) && !MatchesDrivePattern(v.value)
            ==> r == Ok(Render(base) + separator + v.value)
  {
    RelativeDir(GetStringVar(rt, props, c), separator, base)
  }

  /**
   * Resolving twice is resolving once, as long as the base directory is
   * itself absolute (it starts with the separator).
   */
  lemma RelativeDirIdempotent(path: string, separator: string, base: Option<string>)
    requires StartsWith(Render(base), separator)
    ensures RelativeDir(Some(RelativeDir(Some(path), separator, base).value), separator, base)
            == RelativeDir(Some(path), separator, base)
  {
  }

  /**
   * A setting whose default is null and that nobody configured makes
   * getRelativeDir(c) throw; the trust-store path is one.
   */
  lemma UnsetTrustStorePathThrows(separator: string, base: Option<string>)
    ensures RelativeDirOf(Runtime(map[], map[]), map[], SERVER_SSL_TRUSTSTORE_PATH, separator, base)
            == Err(NullPointer)
  {
  }

  /** The web-application temp directory defaults to "webapps" under the base directory. */
  lemma WarTempDirDefault(base: string)
    ensures RelativeDirOf(Runtime(map[], map[]), map[], SUBMARINE_WAR_TEMPDIR, "/", Some(base))
            == Ok(base + "/webapps")
  {
    assert Configured(Runtime(map[], map[]), map[], SUBMARINE_WAR_TEMPDIR).None?;
    assert GetStringVar(Runtime(map[], map[]), map[], SUBMARINE_WAR_TEMPDIR) == Some("webapps");
    assert !StartsWith("webapps", "/") by { assert "webapps"[..1][0] == 'w'; }
    assert !MatchesDrivePattern("webapps");
    assert base + "/" + "webapps" == base + "/webapps";
  }
}
