/** The Vector configuration builder: four independent named tables
    (secret backends, sources, transforms, sinks), an add operation per table
    that refuses a name already in that table, read accessors, and the JSON
    document Vector is given. */
module Vector {
  import opened Results
  import opened Json
  import JsonDecode

  /** One entry's configuration, a Go `map[string]any`. */
  type Section = map<string, Value>

  /** One table, a Go `map[string]map[string]any`. */
  type Table = map<string, Section>

  /** The four tables, each its own namespace. */
  datatype Kind = SecretBackend | Source | Transform | Sink

  /** The message of the panic raised when `key` is already in the table. */
  function DuplicateMessage(kind: Kind, key: string): string {
    match kind
    case SecretBackend => "secret backend key '" + key + "' already added to configuration"
    case Source => "source key '" + key + "' already added to configuration"
    case Transform => "transforms key '" + key + "' already added to configuration"
    case Sink => "sinks key '" + key + "' already added to configuration"
  }

  /** The configuration's contents: Go's `internalConfig` struct. */
  datatype InternalConfig = InternalConfig(secretBackends: Table, sources: Table, transforms: Table, sinks: Table) {

    function Get(kind: Kind): Table {
      match kind
      case SecretBackend => secretBackends
      case Source => sources
      case Transform => transforms
      case Sink => sinks
    }

    /** Adding `key` to one table: refused when the table already has it;
        otherwise that table maps `key` to `cfg`, keeps every other entry,
        and the other three tables are untouched. */
    function Add(kind: Kind, key: string, cfg: Section): (r: Result<InternalConfig>)
      ensures r.Err? <==> key in Get(kind)
      ensures r.Err? ==> r.error == DuplicateMessage(kind, key)
      ensures r.Ok? ==> key in r.value.Get(kind) && r.value.Get(kind)[key] == cfg
      ensures r.Ok? ==> r.value.Get(kind).Keys == Get(kind).Keys + {key}
      ensures r.Ok? ==> forall k :: k in Get(kind) ==> r.value.Get(kind)[k] == Get(kind)[k]
      ensures r.Ok? ==> forall other :: other != kind ==> r.value.Get(other) == Get(other)
    {
      if key in Get(kind) then Err(DuplicateMessage(kind, key))
      else
        var t := Get(kind)[key := cfg];
        match kind
        case SecretBackend => Ok(this.(secretBackends := t))
        case Source => Ok(this.(sources := t))
        case Transform => Ok(this.(transforms := t))
        case Sink => Ok(this.(sinks := t))
    }
  }

  /** What `NewConfig` holds: four empty (non-nil) tables. */
  const EmptyConfig := InternalConfig(map[], map[], map[], map[])

  // ---------------------------------------------------------------------------
  // The document.

  function TableValue(t: Table): Value {
    Obj(map k | k in t :: Obj(t[k]))
  }

  /** The fields the encoder writes, in declaration order; `secret` and
      `transforms` carry `omitempty` and are left out when their table is
      empty, `sources` and `sinks` are always written. */
  function Fields(c: InternalConfig): seq<(string, Value)> {
    Layout(|c.secretBackends| > 0, |c.transforms| > 0,
      TableValue(c.secretBackends), TableValue(c.sources), TableValue(c.transforms), TableValue(c.sinks))
  }

  function Layout(withSecret: bool, withTransforms: bool, secret: Value, sources: Value, transforms: Value, sinks: Value)
    : seq<(string, Value)>
  {
    (if withSecret then [("secret", secret)] else [])
    + [("sources", sources)]
    + (if withTransforms then [("transforms", transforms)] else [])
    + [("sinks", sinks)]
  }

  /** The names of the written fields are distinct, `sources` and `sinks`
      are always there, and the two optional ones exactly when asked for. */
  lemma LayoutShape(withSecret: bool, withTransforms: bool, secret: Value, sources: Value, transforms: Value, sinks: Value)
    ensures var m := MapOf(Layout(withSecret, withTransforms, secret, sources, transforms, sinks));
      && m.Keys <= {"secret", "sources", "transforms", "sinks"}
      && "sources" in m && m["sources"] == sources
      && "sinks" in m && m["sinks"] == sinks
      && ("secret" in m <==> withSecret)
      && ("secret" in m ==> m["secret"] == secret)
      && ("transforms" in m <==> withTransforms)
      && ("transforms" in m ==> m["transforms"] == transforms)
  {
    var fs := Layout(withSecret, withTransforms, secret, sources, transforms, sinks);
    var b, d := ("sources", sources), ("sinks", sinks);
    if withSecret && withTransforms {
      LayoutMap4(("secret", secret), b, ("transforms", transforms), d);
      assert fs == [("secret", secret), b, ("transforms", transforms), d];
    } else if withSecret {
      LayoutMap3(("secret", secret), b, d);
      assert fs == [("secret", secret), b, d];
    } else if withTransforms {
      LayoutMap3(b, ("transforms", transforms), d);
      assert fs == [b, ("transforms", transforms), d];
    } else {
      LayoutMap2(b, d);
      assert fs == [b, d];
    }
  }

  lemma LayoutMap2(x: (string, Value), y: (string, Value))
    ensures MapOf([x, y]) == map[x.0 := x.1] + map[y.0 := y.1]
  {
    assert [x, y][1..] == [y];
    assert [y][1..] == [];
    assert MapOf([y]) == map[y.0 := y.1] + map[];
    assert map[y.0 := y.1] + map[] == map[y.0 := y.1];
  }

  lemma LayoutMap3(x: (string, Value), y: (string, Value), z: (string, Value))
    ensures MapOf([x, y, z]) == map[x.0 := x.1] + map[y.0 := y.1] + map[z.0 := z.1]
  {
    assert [x, y, z][1..] == [y, z];
    LayoutMap2(y, z);
  }

  lemma LayoutMap4(w: (string, Value), x: (string, Value), y: (string, Value), z: (string, Value))
    ensures MapOf([w, x, y, z]) == map[w.0 := w.1] + map[x.0 := x.1] + map[y.0 := y.1] + map[z.0 := z.1]
  {
    assert [w, x, y, z][1..] == [x, y, z];
    LayoutMap3(x, y, z);
  }

  /** The position of each field in the declaration of `internalConfig`. */
  function DeclarationRank(name: string): nat {
    if name == "secret" then 0
    else if name == "sources" then 1
    else if name == "transforms" then 2
    else 3
  }

  /** The fields are written in the order they are declared in. */
  lemma FieldsInDeclarationOrder(c: InternalConfig)
    ensures var fs := Fields(c);
      forall i, j :: 0 <= i < j < |fs| ==> DeclarationRank(fs[i].0) < DeclarationRank(fs[j].0)
  {
    var fs := Fields(c);
    var a, b, t, d := TableValue(c.secretBackends), TableValue(c.sources), TableValue(c.transforms), TableValue(c.sinks);
    if |c.secretBackends| > 0 && |c.transforms| > 0 {
      assert fs == [("secret", a), ("sources", b), ("transforms", t), ("sinks", d)];
    } else if |c.secretBackends| > 0 {
      assert fs == [("secret", a), ("sources", b), ("sinks", d)];
    } else if |c.transforms| > 0 {
      assert fs == [("sources", b), ("transforms", t), ("sinks", d)];
    } else {
      assert fs == [("sources", b), ("sinks", d)];
    }
  }

  /** Where each value sits among the written fields, and that nothing else
      is written. */
  lemma LayoutPositions(withSecret: bool, withTransforms: bool, secret: Value, sources: Value, transforms: Value, sinks: Value)
    ensures var fs := Layout(withSecret, withTransforms, secret, sources, transforms, sinks);
      && |fs| >= 2
      && fs[|fs| - 1].1 == sinks
      && fs[if withSecret then 1 else 0].1 == sources
      && (withSecret ==> fs[0].1 == secret)
      && (withTransforms ==> fs[|fs| - 2].1 == transforms)
      && forall i :: 0 <= i < |fs| ==>
        (fs[i].1 == sources || fs[i].1 == sinks || (withSecret && fs[i].1 == secret) || (withTransforms && fs[i].1 == transforms))
  {
  }

  /** The document as a JSON reader sees it. */
  function DocumentValue(c: InternalConfig): Value {
    Obj(MapOf(Fields(c)))
  }

  /** Every stored value can be encoded. */
  predicate DocumentEncodable(c: InternalConfig) {
    forall kind, key :: key in c.Get(kind) ==> Encodable(Obj(c.Get(kind)[key]))
  }

  /** `Config.JSON` on the configuration's contents: the encoder's text and
      its final newline, or the encoder's error wrapped. */
  function Serialize(c: InternalConfig): (r: Result<string>)
    ensures r.Ok? <==> DocumentEncodable(c)
    ensures r.Ok? ==> JsonDecode.Decode(r.value) == Ok(DocumentValue(c))
    ensures r.Err? ==> |r.error| >= 23 && r.error[..23] == "error encoding config: "
  {
    SerializeSucceedsIff(c);
    match EncodeStruct(Fields(c))
    case Err(e) => Err("error encoding config: " + e)
    case Ok(text) =>
      JsonDecode.DecodeEncodedStruct(Fields(c), text);
      Ok(text + "\n")
  }

  lemma TableEncodableIff(t: Table)
    ensures Encodable(TableValue(t)) <==> forall key :: key in t ==> Encodable(Obj(t[key]))
  {
    var m := map k | k in t :: Obj(t[k]);
    assert forall key :: key in t ==> m[key] == Obj(t[key]);
  }

  lemma DocumentEncodableIff(c: InternalConfig)
    ensures DocumentEncodable(c) <==> forall kind :: Encodable(TableValue(c.Get(kind)))
  {
    forall kind {
      TableEncodableIff(c.Get(kind));
    }
  }

  lemma LayoutEncodable(withSecret: bool, withTransforms: bool, secret: Value, sources: Value, transforms: Value, sinks: Value)
    ensures var fs := Layout(withSecret, withTransforms, secret, sources, transforms, sinks);
      (forall i :: 0 <= i < |fs| ==> Encodable(fs[i].1)) <==>
        (withSecret ==> Encodable(secret)) && Encodable(sources) && (withTransforms ==> Encodable(transforms)) && Encodable(sinks)
  {
    LayoutPositions(withSecret, withTransforms, secret, sources, transforms, sinks);
  }

  lemma SerializeSucceedsIff(c: InternalConfig)
    ensures EncodeStruct(Fields(c)).Ok? <==> DocumentEncodable(c)
  {
    FieldsEncodableIff(c);
    DocumentEncodableIff(c);
    assert c.Get(SecretBackend) == c.secretBackends;
    assert c.Get(Source) == c.sources;
    assert c.Get(Transform) == c.transforms;
    assert c.Get(Sink) == c.sinks;
  }

  lemma FieldsEncodableIff(c: InternalConfig)
    ensures EncodeStruct(Fields(c)).Ok? <==>
      Encodable(TableValue(c.secretBackends)) && Encodable(TableValue(c.sources))
      && Encodable(TableValue(c.transforms)) && Encodable(TableValue(c.sinks))
  {
    var ws, wt := |c.secretBackends| > 0, |c.transforms| > 0;
    var a, b, t, d := TableValue(c.secretBackends), TableValue(c.sources), TableValue(c.transforms), TableValue(c.sinks);
    var fs := Layout(ws, wt, a, b, t, d);
    assert Fields(c) == fs;
    EncodeStructSucceedsIff(fs);
    LayoutEncodable(ws, wt, a, b, t, d);
    if !ws {
      EmptyTableEncodable(c.secretBackends);
    }
    if !wt {
      EmptyTableEncodable(c.transforms);
    }
  }

  lemma EmptyTableEncodable(t: Table)
    requires |t| == 0
    ensures Encodable(TableValue(t))
  {
    assert t == map[];
  }

  /** The document's top-level keys: `sources` and `sinks` always, `secret`
      and `transforms` exactly when their tables are non-empty; each maps to
      its table, name by name. */
  lemma DocumentShape(c: InternalConfig)
    ensures DocumentValue(c).fields.Keys <= {"secret", "sources", "transforms", "sinks"}
    ensures "sources" in DocumentValue(c).fields && DocumentValue(c).fields["sources"] == TableValue(c.sources)
    ensures "sinks" in DocumentValue(c).fields && DocumentValue(c).fields["sinks"] == TableValue(c.sinks)
    ensures "secret" in DocumentValue(c).fields <==> |c.secretBackends| > 0
    ensures "secret" in DocumentValue(c).fields ==> DocumentValue(c).fields["secret"] == TableValue(c.secretBackends)
    ensures "transforms" in DocumentValue(c).fields <==> |c.transforms| > 0
    ensures "transforms" in DocumentValue(c).fields ==> DocumentValue(c).fields["transforms"] == TableValue(c.transforms)
  {
    LayoutShape(|c.secretBackends| > 0, |c.transforms| > 0,
      TableValue(c.secretBackends), TableValue(c.sources), TableValue(c.transforms), TableValue(c.sinks));
  }

  /** With no secret backends and no transforms, the document holds just
      the two tables that are always written. */
  lemma DocumentWithoutOptional(c: InternalConfig)
    requires |c.secretBackends| == 0 && |c.transforms| == 0
    ensures DocumentValue(c) == Obj(map["sources" := TableValue(c.sources), "sinks" := TableValue(c.sinks)])
  {
    DocumentShape(c);
    assert DocumentValue(c).fields.Keys == {"sources", "sinks"};
  }

  /** Each section of the document maps exactly the table's names to the
      stored values. */
  lemma TableValueExact(t: Table)
    ensures TableValue(t).fields.Keys == t.Keys
    ensures forall key :: key in t ==> TableValue(t).fields[key] == Obj(t[key])
  {
  }

  /** A fresh configuration holds nothing the encoder could refuse. */
  lemma EmptyConfigEncodable()
    ensures DocumentEncodable(EmptyConfig)
  {
  }

  /** Adding a section the encoder accepts keeps the whole configuration
      encodable. */
  lemma AddKeepsEncodable(c: InternalConfig, kind: Kind, key: string, cfg: Section)
    requires DocumentEncodable(c) && Encodable(Obj(cfg))
    requires c.Add(kind, key, cfg).Ok?
    ensures DocumentEncodable(c.Add(kind, key, cfg).value)
  {
    var r := c.Add(kind, key, cfg).value;
    forall other, k | k in r.Get(other)
      ensures Encodable(Obj(r.Get(other)[k]))
    {
      if other == kind && k != key {
        assert k in c.Get(kind);
      }
    }
  }

  /** A fresh configuration is written, and read back, as an object with
      an empty `sources` and an empty `sinks` and nothing else. */
  lemma EmptyConfigDocument()
    ensures Serialize(EmptyConfig).Ok?
    ensures JsonDecode.Decode(Serialize(EmptyConfig).value) == Ok(Obj(map["sources" := Obj(map[]), "sinks" := Obj(map[])]))
  {
    EmptyConfigEncodable();
    DocumentWithoutOptional(EmptyConfig);
    assert TableValue(map[]) == Obj(map[]);
  }

  /** Given how `Config.Add*` ended (`o`), the contents before and after. */
  predicate Applied(r: Result<InternalConfig>, o: Outcome, before: InternalConfig, after: InternalConfig) {
    match r
    case Ok(next) => o == Pass && after == next
    case Err(e) => o == Fail(e) && after == before
  }

  lemma AddSameKeyTwiceFails(c: InternalConfig, kind: Kind, key: string, cfg1: Section, cfg2: Section)
    requires c.Add(kind, key, cfg1).Ok?
    ensures c.Add(kind, key, cfg1).value.Add(kind, key, cfg2) == Err(DuplicateMessage(kind, key))
  {
  }

  /** Each table is its own namespace: a name taken in one table does not
      stop the same name being added to another. */
  lemma SameKeyInOtherTable(c: InternalConfig, kind1: Kind, kind2: Kind, key: string, cfg1: Section, cfg2: Section)
    requires kind1 != kind2 && c.Add(kind1, key, cfg1).Ok?
    ensures c.Add(kind1, key, cfg1).value.Add(kind2, key, cfg2).Ok? <==> key !in c.Get(kind2)
  {
  }

  // ---------------------------------------------------------------------------
  // The builder object.

  /** Go's `*Config`: the methods update the tables in place. */
  class Config {
    var internal: InternalConfig

    /** `NewConfig`. */
    constructor ()
      ensures internal == EmptyConfig
    {
      internal := EmptyConfig;
    }

    method AddSecretBackend(backendName: string, cfg: Section) returns (o: Outcome)
      modifies this
      ensures Applied(old(internal).Add(SecretBackend, backendName, cfg), o, old(internal), internal)
    {
      if backendName in internal.secretBackends {
        return Fail(DuplicateMessage(SecretBackend, backendName));
      }
      internal := internal.(secretBackends := internal.secretBackends[backendName := cfg]);
      o := Pass;
    }

    method AddSourceUntyped(key: string, cfg: Section) returns (o: Outcome)
      modifies this
      ensures Applied(old(internal).Add(Source, key, cfg), o, old(internal), internal)
    {
      if key in internal.sources {
        return Fail(DuplicateMessage(Source, key));
      }
      internal := internal.(sources := internal.sources[key := cfg]);
      o := Pass;
    }

    method AddTransformUntyped(key: string, cfg: Section) returns (o: Outcome)
      modifies this
      ensures Applied(old(internal).Add(Transform, key, cfg), o, old(internal), internal)
    {
      if key in internal.transforms {
        return Fail(DuplicateMessage(Transform, key));
      }
      internal := internal.(transforms := internal.transforms[key := cfg]);
      o := Pass;
    }

    method AddSinkUntyped(key: string, cfg: Section) returns (o: Outcome)
      modifies this
      ensures Applied(old(internal).Add(Sink, key, cfg), o, old(internal), internal)
    {
      if key in internal.sinks {
        return Fail(DuplicateMessage(Sink, key));
      }
      internal := internal.(sinks := internal.sinks[key := cfg]);
      o := Pass;
    }

    /** The document for the current tables. */
    function JSON(): (r: Result<string>)
      reads this
      ensures r == Serialize(internal)
      ensures r.Ok? <==> DocumentEncodable(internal)
      ensures r.Ok? ==> JsonDecode.Decode(r.value) == Ok(DocumentValue(internal))
    {
      Serialize(internal)
    }

    method Sources() returns (r: Table)
      ensures r == internal.sources
    {
      r := CopyTable(map[], internal.sources);
    }

    method Transforms() returns (r: Table)
      ensures r == internal.transforms
    {
      r := CopyTable(map[], internal.transforms);
    }

    method Sinks() returns (r: Table)
      ensures r == internal.sinks
    {
      r := CopyTable(map[], internal.sinks);
    }
  }

  /** `maps.Copy(dst, src)`: every entry of `src` is written into `dst`,
      replacing an entry of `dst` with the same name. */
  method CopyTable(dst: Table, src: Table) returns (r: Table)
    ensures r == dst + src
  {
    r := dst;
    var todo := src.Keys;
    while todo != {}
      invariant todo <= src.Keys
      invariant r.Keys == dst.Keys + (src.Keys - todo)
      invariant forall k :: k in src && k !in todo ==> r[k] == src[k]
      invariant forall k :: k in dst && k !in src ==> r[k] == dst[k]
      invariant forall k :: k in dst && k in todo ==> r[k] == dst[k]
      decreases todo
    {
      var k :| k in todo;
      r := r[k := src[k]];
      todo := todo - {k};
    }
  }
}
