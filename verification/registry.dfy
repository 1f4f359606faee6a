/** The name-keyed registry of controller configurations.

    Processing a controller looks up its override properties by the
    controller's name, wraps its annotation-derived configuration with them,
    and stores the wrapper under that same name. A later controller with the
    same name replaces the entry. Looking a controller up is a plain map
    read: a name never processed yields null (`None`), not a default. */
module ConfigRegistry {
  import opened Optionals
  import opened ControllerConfig
  import opened ConfigurationWrapper

  /** A resource controller: the name its getName() answers, which keys both
      the properties and the registry, and the configuration its annotations
      declare. The two names are separate values; nothing forces them equal. */
  datatype Controller = Controller(name: string, declared: ControllerConfiguration)

  type Registry = map<string, Wrapper>

  /** Override properties bound from configuration, by controller name. */
  type PropertiesMap = map<string, ControllerProperties>

  /** The wrapper built for `c`: its declared configuration with the
      properties found under its own name. */
  function WrapperFor(props: PropertiesMap, c: Controller): Wrapper
  {
    Wrapper(c.declared, Get(props, c.name))
  }

  /** Processes one controller: records its wrapper under its name and hands
      the controller back unchanged. */
  function ProcessController(reg: Registry, props: PropertiesMap, c: Controller): (r: (Registry, Controller))
    ensures r.1 == c
    ensures r.0.Keys == reg.Keys + {c.name}
    ensures r.0[c.name].base == c.declared
    ensures c.name in props ==> r.0[c.name].properties == Some(props[c.name])
    ensures c.name !in props ==> r.0[c.name].properties == None
    ensures forall n :: n in reg && n != c.name ==> r.0[n] == reg[n]
  {
    var cfg := WrapperFor(props, c);
    (reg[c.name := cfg], c)
  }

  /** The configuration registered under the controller's name, if any. */
  function GetConfigurationFor(reg: Registry, c: Controller): (r: Option<Wrapper>)
    ensures r.Some? <==> c.name in reg
    ensures r.Some? ==> r.value == reg[c.name]
  {
    Get(reg, c.name)
  }

  /** Registers every controller of `cs` in order, as the operator bean does,
      and returns the controllers handed on for registration with the
      operator. */
  function RegisterAll(reg: Registry, props: PropertiesMap, cs: seq<Controller>): (r: (Registry, seq<Controller>))
    ensures r.0.Keys == reg.Keys + Names(cs)
    ensures r.1 == cs
    decreases |cs|
  {
    if |cs| == 0 then (reg, [])
    else
      var (reg', c) := ProcessController(reg, props, cs[0]);
      var (reg'', rest) := RegisterAll(reg', props, cs[1..]);
      assert Names(cs) == {cs[0].name} + Names(cs[1..]) by {
        NamesUncons(cs);
      }
      (reg'', [c] + rest)
  }

  /** The operator bean's registry: all controllers registered, starting
      from the empty registry the auto-configuration is created with. */
  function OperatorRegistry(props: PropertiesMap, cs: seq<Controller>): (r: Registry)
    ensures r.Keys == Names(cs)
  {
    RegisterAll(map[], props, cs).0
  }

  /** The names of the given controllers. */
  function Names(cs: seq<Controller>): set<string>
  {
    set i | 0 <= i < |cs| :: cs[i].name
  }

  lemma NamesUncons(cs: seq<Controller>)
    requires |cs| > 0
    ensures Names(cs) == {cs[0].name} + Names(cs[1..])
  {
    forall n | n in Names(cs)
      ensures n in {cs[0].name} + Names(cs[1..])
    {
      var i :| 0 <= i < |cs| && cs[i].name == n;
      if i > 0 {
        assert cs[1..][i - 1] == cs[i];
      }
    }
    forall n | n in Names(cs[1..])
      ensures n in Names(cs)
    {
      var i :| 0 <= i < |cs[1..]| && cs[1..][i].name == n;
      assert cs[i + 1] == cs[1..][i];
    }
  }

  /** The last controller in `cs` whose name is `n`: the one whose
      registration survives. */
  function LastNamed(cs: seq<Controller>, n: string): (r: Option<Controller>)
    ensures r.None? <==> n !in Names(cs)
    ensures r.Some? ==>
              exists i :: 0 <= i < |cs| && cs[i] == r.value && cs[i].name == n
                          && forall j :: i < j < |cs| ==> cs[j].name != n
    decreases |cs|
  {
    if |cs| == 0 then None
    else
      var later := LastNamed(cs[1..], n);
      NamesUncons(cs);
      match later
      case Some(c) =>
        assert exists i :: 0 <= i < |cs| && cs[i] == c && cs[i].name == n
                           && forall j :: i < j < |cs| ==> cs[j].name != n by {
          var i :| 0 <= i < |cs[1..]| && cs[1..][i] == c && cs[1..][i].name == n
                   && forall j :: i < j < |cs[1..]| ==> cs[1..][j].name != n;
          assert cs[i + 1] == cs[1..][i];
          assert forall j :: i + 1 < j < |cs| ==> cs[j] == cs[1..][j - 1];
        }
        later
      case None =>
        if cs[0].name == n then
          assert forall j :: 0 < j < |cs| ==> cs[j].name != n by {
            forall j | 0 < j < |cs| ensures cs[j].name != n {
              assert cs[j] == cs[1..][j - 1];
            }
          }
          Some(cs[0])
        else None
  }

  /** After registering `cs`, a controller's lookup finds the wrapper built
      for the last controller of `cs` with its name; names not in `cs` keep
      whatever the registry held before. */
  lemma {:induction false} RegisterAllLookup(reg: Registry, props: PropertiesMap, cs: seq<Controller>, d: Controller)
    ensures GetConfigurationFor(RegisterAll(reg, props, cs).0, d)
            == match LastNamed(cs, d.name)
               case Some(c) => Some(WrapperFor(props, c))
               case None => GetConfigurationFor(reg, d)
    decreases |cs|
  {
    if |cs| > 0 {
      var reg' := ProcessController(reg, props, cs[0]).0;
      RegisterAllLookup(reg', props, cs[1..], d);
    }
  }

  /** Looking up any controller with the processed controller's name finds
      the wrapper built for the processed controller, carrying the
      properties stored under that same name. */
  lemma LookupAfterProcess(reg: Registry, props: PropertiesMap, c: Controller, d: Controller)
    requires d.name == c.name
    ensures GetConfigurationFor(ProcessController(reg, props, c).0, d) == Some(WrapperFor(props, c))
    ensures GetConfigurationFor(ProcessController(reg, props, c).0, d).value.properties == Get(props, d.name)
  {
  }

  /** Of two registrations under one name, the later one wins. */
  lemma LastRegistrationWins(reg: Registry, props: PropertiesMap, c1: Controller, c2: Controller)
    requires c1.name == c2.name
    ensures var after := ProcessController(ProcessController(reg, props, c1).0, props, c2).0;
            GetConfigurationFor(after, c1) == Some(WrapperFor(props, c2))
  {
  }

  /** Processing a controller leaves every other name's entry, or absence
      of one, as it was. */
  lemma ProcessLeavesOtherNames(reg: Registry, props: PropertiesMap, c: Controller, d: Controller)
    requires d.name != c.name
    ensures GetConfigurationFor(ProcessController(reg, props, c).0, d) == GetConfigurationFor(reg, d)
  {
  }

  /** A controller whose name was never registered is looked up as null,
      not as some default configuration. */
  lemma UnknownLookupIsAbsent(props: PropertiesMap, cs: seq<Controller>, d: Controller)
    requires d.name !in Names(cs)
    ensures GetConfigurationFor(OperatorRegistry(props, cs), d) == None
  {
  }

  /** Every registered controller's lookup finds the wrapper of the last
      controller registered under its name. */
  lemma RegisteredLookupIsLast(props: PropertiesMap, cs: seq<Controller>, d: Controller)
    requires d.name in Names(cs)
    ensures LastNamed(cs, d.name).Some?
    ensures GetConfigurationFor(OperatorRegistry(props, cs), d) == Some(WrapperFor(props, LastNamed(cs, d.name).value))
  {
    RegisterAllLookup(map[], props, cs, d);
  }

  /** Registering controllers named "a", "b", "a" leaves two entries, and
      "a" maps to the third controller's wrapper. */
  lemma ReRegistrationExample(props: PropertiesMap, b1: ControllerConfiguration, b2: ControllerConfiguration,
                              b3: ControllerConfiguration)
    ensures var cs := [Controller("a", b1), Controller("b", b2), Controller("a", b3)];
            var reg := OperatorRegistry(props, cs);
            && reg.Keys == {"a", "b"}
            && GetConfigurationFor(reg, cs[0]) == Some(WrapperFor(props, cs[2]))
            && GetConfigurationFor(reg, cs[1]) == Some(WrapperFor(props, cs[1]))
  {
    var cs := [Controller("a", b1), Controller("b", b2), Controller("a", b3)];
    assert Names(cs) == {"a", "b"} by {
      assert cs[0].name == "a" && cs[1].name == "b";
    }
    RegisteredLookupIsLast(props, cs, cs[0]);
    RegisteredLookupIsLast(props, cs, cs[1]);
    var i :| 0 <= i < |cs| && cs[i] == LastNamed(cs, "a").value && cs[i].name == "a"
             && forall j :: i < j < |cs| ==> cs[j].name != "a";
    assert cs[1].name == "b" && cs[2].name == "a";
  }
}
