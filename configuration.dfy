/** `McpServer::Configuration` (lib/mcp_server/configuration.rb): a mutable
    record of extension points, written with attribute setters during setup. */
module Config {
  import opened Ruby

  /** The attributes of a configuration. */
  datatype Field =
    | AuthenticateWith
    | BuildContextWith
    | Tools
    | Prompts
    | Resources
    | ResourcesReadHandler
    | Transport

  /** The value of every attribute of a configuration at one moment. */
  datatype Settings = Settings(
    authenticateWith: RubyObject,
    buildContextWith: RubyObject,
    tools: RubyObject,
    prompts: RubyObject,
    resources: RubyObject,
    resourcesReadHandler: RubyObject,
    transport: RubyObject)

  /** Reading attribute f (the generated reader method). */
  function Get(s: Settings, f: Field): (r: RubyObject)
  {
    match f
    case AuthenticateWith => s.authenticateWith
    case BuildContextWith => s.buildContextWith
    case Tools => s.tools
    case Prompts => s.prompts
    case Resources => s.resources
    case ResourcesReadHandler => s.resourcesReadHandler
    case Transport => s.transport
  }

  /** Writing attribute f (the generated writer method): the value written is
      read back, and every other attribute keeps its value. */
  function Set(s: Settings, f: Field, v: RubyObject): (r: Settings)
    ensures Get(r, f) == v
    ensures forall g :: g != f ==> Get(r, g) == Get(s, g)
  {
    match f
    case AuthenticateWith => s.(authenticateWith := v)
    case BuildContextWith => s.(buildContextWith := v)
    case Tools => s.(tools := v)
    case Prompts => s.(prompts := v)
    case Resources => s.(resources := v)
    case ResourcesReadHandler => s.(resourcesReadHandler := v)
    case Transport => s.(transport := v)
  }

  /** Writing back the value just read changes nothing, and two settings
      that every reader agrees on are the same settings. */
  lemma ReadersDetermineSettings(s: Settings, t: Settings, f: Field)
    ensures Set(s, f, Get(s, f)) == s
    ensures (forall g :: Get(s, g) == Get(t, g)) ==> s == t
  {
    if forall g :: Get(s, g) == Get(t, g) {
      assert Get(s, AuthenticateWith) == Get(t, AuthenticateWith);
      assert Get(s, BuildContextWith) == Get(t, BuildContextWith);
      assert Get(s, Tools) == Get(t, Tools);
      assert Get(s, Prompts) == Get(t, Prompts);
      assert Get(s, Resources) == Get(t, Resources);
      assert Get(s, ResourcesReadHandler) == Get(t, ResourcesReadHandler);
      assert Get(s, Transport) == Get(t, Transport);
    }
  }

  /** The catalog attributes, which `initialize` sets to empty arrays. */
  const CatalogFields: set<Field> := {Tools, Prompts, Resources}

  /** The state `initialize` leaves behind: no authentication predicate, no
      context builder, empty catalogs, and neither a read handler nor a
      transport. */
  function Defaults(): (s: Settings)
    ensures forall f :: Get(s, f) == if f in CatalogFields then Array([]) else Nil
    ensures !Truthy(s.authenticateWith) && !Truthy(s.buildContextWith)
    ensures !Truthy(s.resourcesReadHandler) && !Truthy(s.transport)
  {
    Settings(Nil, Nil, Array([]), Array([]), Array([]), Nil, Nil)
  }

  /** One attribute write performed by a configuration block, such as
      `config.tools = [tool]`. */
  datatype Assignment = Assign(field: Field, value: RubyObject)

  /** The settings after a block performs the writes of block, in order:
      the block's final write is in force afterwards. */
  function ApplyAll(s: Settings, block: seq<Assignment>): (r: Settings)
    ensures block != [] ==> Get(r, block[|block| - 1].field) == block[|block| - 1].value
  {
    if block == [] then s
    else
      var last := block[|block| - 1];
      Set(ApplyAll(s, block[..|block| - 1]), last.field, last.value)
  }

  /** The value of the last write to f in block, if there is one. */
  function LastWrite(block: seq<Assignment>, f: Field): (r: Option<RubyObject>)
  {
    if block == [] then None
    else if block[|block| - 1].field == f then Some(block[|block| - 1].value)
    else LastWrite(block[..|block| - 1], f)
  }

  /** After a block, an attribute holds the value of its last write, or its
      earlier value when the block does not write it. */
  lemma {:induction false} ApplyAllLastWrite(s: Settings, block: seq<Assignment>, f: Field)
    ensures Get(ApplyAll(s, block), f) ==
            match LastWrite(block, f) case Some(v) => v case None => Get(s, f)
  {
    if block != [] {
      ApplyAllLastWrite(s, block[..|block| - 1], f);
    }
  }

  /** An attribute that a block never writes keeps its earlier value. */
  lemma {:induction false} ApplyAllKeepsUnwritten(s: Settings, block: seq<Assignment>, f: Field)
    requires forall i :: 0 <= i < |block| ==> block[i].field != f
    ensures Get(ApplyAll(s, block), f) == Get(s, f)
  {
    if block != [] {
      ApplyAllKeepsUnwritten(s, block[..|block| - 1], f);
    }
  }

  /** Running two blocks one after the other is running their writes as one block. */
  lemma {:induction false} ApplyAllConcat(s: Settings, first: seq<Assignment>, second: seq<Assignment>)
    ensures ApplyAll(ApplyAll(s, first), second) == ApplyAll(s, first + second)
  {
    if second == [] {
      assert first + second == first;
    } else {
      var n := |second|;
      ApplyAllConcat(s, first, second[..n - 1]);
      assert (first + second)[..|first + second| - 1] == first + second[..n - 1];
    }
  }

  /** The accessors configuration.rb:3 actually declares with `attr_accessor`.
      It declares none for `resources_read_handler` and `transport`, although
      rack_app.rb:27 and rack_app.rb:32 read them. */
  const DeclaredAccessors: set<Field> := {AuthenticateWith, BuildContextWith, Tools, Prompts, Resources}

  /** The answer to an attribute reader: a value, or no such method. */
  datatype Lookup = Found(value: RubyObject) | Missing

  /** What sending an attribute reader to a configuration does as the class
      is written: an undeclared reader raises `NoMethodError`. */
  function ReadAsWritten(s: Settings, f: Field): (r: Lookup)
    ensures r.Missing? <==> f !in DeclaredAccessors
    ensures r.Found? ==> r.value == Get(s, f)
  {
    if f in DeclaredAccessors then Found(Get(s, f)) else Missing
  }

  /** A configuration object. The model gives it all seven attributes the
      rest of the library uses; `resourcesReadHandler` and `transport` have
      no accessor in configuration.rb and are modelled as attributes that
      start out absent (`nil`). */
  class Configuration {
    var authenticateWith: RubyObject
    var buildContextWith: RubyObject
    var tools: RubyObject
    var prompts: RubyObject
    var resources: RubyObject
    var resourcesReadHandler: RubyObject
    var transport: RubyObject

    function Snapshot(): (s: Settings)
      reads this
    {
      Settings(authenticateWith, buildContextWith, tools, prompts, resources,
               resourcesReadHandler, transport)
    }

    constructor ()
      ensures Snapshot() == Defaults()
    {
      authenticateWith := Nil;
      buildContextWith := Nil;
      tools := Array([]);
      prompts := Array([]);
      resources := Array([]);
      resourcesReadHandler := Nil;
      transport := Nil;
    }

    /** The attribute writer for f. */
    method Write(f: Field, v: RubyObject)
      modifies this
      ensures Snapshot() == Set(old(Snapshot()), f, v)
    {
      match f
      case AuthenticateWith => authenticateWith := v;
      case BuildContextWith => buildContextWith := v;
      case Tools => tools := v;
      case Prompts => prompts := v;
      case Resources => resources := v;
      case ResourcesReadHandler => resourcesReadHandler := v;
      case Transport => transport := v;
    }
  }
}
