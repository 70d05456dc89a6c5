/**
 * The `properties` map of SubmarineConfiguration: how initProperties fills
 * it from the child nodes of the site file's root, and how the setters for
 * tests overwrite it. The XML parsing itself is not modelled: the root's
 * children arrive as ConfigNode values.
 */
module SiteProperties {
  import opened Wrappers
  import opened JavaLang
  import opened ConfVars
  import opened Settings

  /**
   * One child of the root node (a <property> element): the values of its
   * `name` children and of its `value` children, in document order.
   */
  datatype ConfigNode = ConfigNode(names: seq<Option<string>>, values: seq<Option<string>>)

  /** Both getChildren("name").get(0) and getChildren("value").get(0) succeed. */
  predicate HasEntry(p: ConfigNode) {
    |p.names| > 0 && |p.values| > 0
  }

  /** The key a well-formed node is stored under: its first name, unless that is null or empty. */
  function Key(p: ConfigNode): Option<string> {
    if HasEntry(p) && !IsEmpty(p.names[0]) then p.names[0] else None
  }

  /** The properties after a pass over some nodes, and whether the pass got to the end. */
  datatype Loading = Loading(props: Properties, completed: bool)

  /**
   * The loop of initProperties, node by node: a node without a name or a
   * value child throws IndexOutOfBoundsException and stops the pass; a node
   * with a null or empty name is skipped; any other node puts its value
   * under its name.
   */
  function Load(m: Properties, nodes: seq<ConfigNode>): (r: Loading)
    ensures r.completed <==> forall i :: 0 <= i < |nodes| ==> HasEntry(nodes[i])
    decreases |nodes|
  {
    if nodes == [] then Loading(m, true)
    else
      var p := nodes[0];
      if |p.names| == 0 || |p.values| == 0 then Loading(m, false)
      else
        var name := p.names[0];
        var value := p.values[0];
        var r := Load(if IsEmpty(name) then m else m[name.value := value], nodes[1..]);
        assert forall i :: 1 <= i < |nodes| ==> nodes[1..][i - 1] == nodes[i];
        r
  }

  /** The names the nodes store something under. */
  function Keys(nodes: seq<ConfigNode>): set<string> {
    set i | 0 <= i < |nodes| && Key(nodes[i]).Some? :: Key(nodes[i]).value
  }

  /** After a complete pass the map holds exactly the old keys and the nodes' names. */
  lemma {:induction false} LoadKeys(m: Properties, nodes: seq<ConfigNode>)
    requires Load(m, nodes).completed
    ensures Load(m, nodes).props.Keys == m.Keys + Keys(nodes)
    decreases |nodes|
  {
    if nodes != [] {
      var p := nodes[0];
      var m' := if IsEmpty(p.names[0]) then m else m[p.names[0].value := p.values[0]];
      LoadKeys(m', nodes[1..]);
      forall k | k in Keys(nodes) ensures k in m'.Keys + Keys(nodes[1..]) {
        var i :| 0 <= i < |nodes| && Key(nodes[i]) == Some(k);
        if i > 0 {
          assert nodes[1..][i - 1] == nodes[i];
        }
      }
      forall k | k in Keys(nodes[1..]) ensures k in Keys(nodes) {
        var i :| 0 <= i < |nodes[1..]| && Key(nodes[1..][i]) == Some(k);
        assert nodes[i + 1] == nodes[1..][i];
      }
    }
  }

  /** A name no node carries keeps its old entry, or stays absent; this holds even when the pass stops early. */
  lemma {:induction false} LoadKeepsUnnamed(m: Properties, nodes: seq<ConfigNode>, k: string)
    requires forall i :: 0 <= i < |nodes| ==> Key(nodes[i]) != Some(k)
    ensures k in Load(m, nodes).props <==> k in m
    ensures k in m ==> Load(m, nodes).props[k] == m[k]
    decreases |nodes|
  {
    if nodes != [] && HasEntry(nodes[0]) {
      var p := nodes[0];
      var m' := if IsEmpty(p.names[0]) then m else m[p.names[0].value := p.values[0]];
      assert forall i :: 0 <= i < |nodes[1..]| ==> nodes[1..][i] == nodes[i + 1];
      LoadKeepsUnnamed(m', nodes[1..], k);
    }
  }

  /** For a name carried by several nodes, the last of them decides the value. */
  lemma {:induction false} LoadLastWins(m: Properties, nodes: seq<ConfigNode>, i: nat, k: string)
    requires Load(m, nodes).completed
    requires i < |nodes| && Key(nodes[i]) == Some(k)
    requires forall j :: i < j < |nodes| ==> Key(nodes[j]) != Some(k)
    ensures k in Load(m, nodes).props
    ensures Load(m, nodes).props[k] == nodes[i].values[0]
    decreases |nodes|
  {
    var p := nodes[0];
    var m' := if IsEmpty(p.names[0]) then m else m[p.names[0].value := p.values[0]];
    if i == 0 {
      assert forall j :: 0 <= j < |nodes[1..]| ==> nodes[1..][j] == nodes[j + 1];
      LoadKeepsUnnamed(m', nodes[1..], k);
    } else {
      assert nodes[1..][i - 1] == nodes[i];
      assert forall j :: i - 1 < j < |nodes[1..]| ==> nodes[1..][j] == nodes[j + 1];
      LoadLastWins(m', nodes[1..], i - 1, k);
    }
  }

  // ---------------------------------------------------------------------
  // Overwriting one entry, as the setters for tests do
  // ---------------------------------------------------------------------

  /**
   * Storing v under the property name of c: unless the environment or a
   * system property overrides c, getString(c) then returns v, or the
   * default of c when v is null.
   */
  lemma OverwriteThenRead(rt: Runtime, props: Properties, c: ConfVar, v: Option<string>)
    requires c.varName != "" && c.name !in rt.env && c.varName !in rt.systemProperties
    ensures GetStringVar(rt, props[c.varName := v], c) == if v.Some? then v else c.stringValue
  {
  }

  /** Storing under the property name of one constant changes no other constant's setting. */
  lemma OverwriteLeavesOthers(rt: Runtime, props: Properties, i: nat, j: nat, v: Option<string>)
    requires i < |Values()| && j < |Values()| && i != j
    ensures var c, d := Values()[i], Values()[j];
            && GetStringVar(rt, props[c.varName := v], d) == GetStringVar(rt, props, d)
            && GetIntVar(rt, props[c.varName := v], d) == GetIntVar(rt, props, d)
            && GetLongVar(rt, props[c.varName := v], d) == GetLongVar(rt, props, d)
            && GetBooleanVar(rt, props[c.varName := v], d) == GetBooleanVar(rt, props, d)
  {
    VarNamesDistinct();
    VarNamesNonEmpty();
    var c, d := Values()[i], Values()[j];
    assert c.varName != d.varName;
    LookupIsLocal(rt, rt, props[c.varName := v], props, d);
  }

  // ---------------------------------------------------------------------
  // The object
  // ---------------------------------------------------------------------

  /** The state SubmarineConfiguration keeps itself: the `properties` HashMap. */
  class SubmarineConfiguration {
    var properties: Properties

    /** `new HashMap<>()`: the map every constructor starts from. */
    constructor ()
      ensures properties == map[]
    {
      properties := map[];
    }

    /**
     * initProperties(), given the root's children (null or a list). A
     * null or empty list leaves the map as it is; otherwise the nodes are
     * put in order, and `completed` is false when a node without a name or
     * value child threw part-way.
     */
    method InitProperties(nodes: Option<seq<ConfigNode>>) returns (completed: bool)
      modifies this
      ensures nodes.None? || nodes.value == [] ==> completed && properties == old(properties)
      ensures nodes.Some? ==> Loading(properties, completed) == Load(old(properties), nodes.value)
    {
      if nodes.None? || |nodes.value| == 0 {
        return true;
      }
      var list := nodes.value;
      var i := 0;
      while i < |list|
        invariant 0 <= i <= |list|
        invariant Load(old(properties), list) == Load(properties, list[i..])
      {
        var p := list[i];
        assert list[i..][1..] == list[i + 1..];
        if |p.names| == 0 || |p.values| == 0 {
          return false;
        }
        var name := p.names[0];
        var value := p.values[0];
        if !IsEmpty(name) {
          properties := properties[name.value := value];
        }
        i := i + 1;
      }
      return true;
    }

    /** setJdbcUrl(testJdbcUrl). */
    method SetJdbcUrl(testJdbcUrl: Option<string>)
      modifies this
      ensures properties == old(properties)[JDBC_URL.varName := testJdbcUrl]
      ensures forall rt: Runtime :: JDBC_URL.name !in rt.env && JDBC_URL.varName !in rt.systemProperties
                ==> JdbcUrl(rt, properties) == if testJdbcUrl.Some? then testJdbcUrl else JDBC_URL.stringValue
    {
      properties := properties[JDBC_URL.varName := testJdbcUrl];
    }

    /** setJdbcUserName(userName). */
    method SetJdbcUserName(userName: Option<string>)
      modifies this
      ensures properties == old(properties)[JDBC_USERNAME.varName := userName]
      ensures forall rt: Runtime :: JDBC_USERNAME.name !in rt.env && JDBC_USERNAME.varName !in rt.systemProperties
                ==> JdbcUserName(rt, properties) == if userName.Some? then userName else JDBC_USERNAME.stringValue
    {
      properties := properties[JDBC_USERNAME.varName := userName];
    }

    /** setJdbcPassword(password). */
    method SetJdbcPassword(password: Option<string>)
      modifies this
      ensures properties == old(properties)[JDBC_PASSWORD.varName := password]
      ensures forall rt: Runtime :: JDBC_PASSWORD.name !in rt.env && JDBC_PASSWORD.varName !in rt.systemProperties
                ==> JdbcPassword(rt, properties) == if password.Some? then password else JDBC_PASSWORD.stringValue
    {
      properties := properties[JDBC_PASSWORD.varName := password];
    }
  }

  /** A test that sets the JDBC URL reads it back, and the other settings stay what they were. */
  method SetJdbcUrlClient(rt: Runtime, url: string)
    requires JDBC_URL.name !in rt.env && JDBC_URL.varName !in rt.systemProperties
  {
    var conf := new SubmarineConfiguration();
    var before := conf.properties;
    conf.SetJdbcUrl(Some(url));
    assert JdbcUrl(rt, conf.properties) == Some(url);
    OverwriteLeavesOthers(rt, before, 17, 18, Some(url));
    assert JdbcUserName(rt, conf.properties) == JdbcUserName(rt, before);
  }
}
