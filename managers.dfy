/** The data-id manager and the instrument and industry-code managers, as
    methods of one registry that holds the stored rows: identities by code,
    instruments by primary key, industry-code nodes by id. */
module Managers {
  import opened Python
  import opened Conversion
  import opened IntParse
  import opened ContentTypes
  import opened Industry
  import opened Builders

  /** What `model.objects.create` returns into `_new_content`: a saved
      record, known by its primary key, or the unsaved record of the
      Security builder. */
  datatype Content = Saved(key: int) | Unsaved(record: Instrument)

  /** An identity record ("data id"). `contentType` and `objectId` form the
      generic reference to its instrument; `newContent` is the in-memory
      `_new_content` attribute create and modify set. */
  datatype DataId = DataId(code: Value, country: Value, defaultVendor: Value,
                           contentType: Option<ContentType>, objectId: Option<int>,
                           curncy: Value, newContent: Option<Content>)

  /** The row Django's `get_or_create(code = code)` inserts: only the code set. */
  function Bare(code: Value): (d: DataId)
    ensures d.code == code && d.contentType.None? && d.objectId.None? && d.newContent.None?
    ensures d.country == PyNone && d.defaultVendor == PyNone && d.curncy == PyNone
  {
    DataId(code, PyNone, PyNone, None, None, PyNone, None)
  }

  /** The parameters `create` and `modify` bind by name. */
  const IdentityParams: set<string> := {"commit", "type", "country", "default_vendor"}

  /** `commit`, default True. */
  function CommitArg(kw: Kwargs): Value {
    Arg(kw, "commit", PyBool(true))
  }

  /** `type`, default None. */
  function TypeArg(kw: Kwargs): Value {
    Arg(kw, "type", PyNone)
  }

  /** What `model.objects.create(id, commit = commit, **kwargs)` passes to a
      builder: `commit` and the keywords `create` does not bind, so never
      `type`, `country` or `default_vendor`. */
  function BuilderKw(kw: Kwargs): (b: Kwargs)
    ensures b.Keys == (kw.Keys - IdentityParams) + {"commit"}
    ensures b["commit"] == CommitArg(kw)
    ensures forall k :: k in kw && k !in IdentityParams ==> b[k] == kw[k]
  {
    Without(kw, IdentityParams)["commit" := CommitArg(kw)]
  }

  /** The `commit` flag `create` and `modify` pass on has no effect on what
      the builder makes: the instrument is built, and saved, the same way
      whether or not the identity itself is to be saved. */
  lemma BuildersIgnoreCommit(conv: Converter, kind: ModelKind, owner: Value, kw: Kwargs, nodes: Nodes, v: Value)
    ensures Built(conv, kind, owner, BuilderKw(kw["commit" := v]), nodes) ==
            Built(conv, kind, owner, BuilderKw(kw), nodes)
  {
    assert "commit" in IdentityParams;
    assert Without(kw["commit" := v], IdentityParams) == Without(kw, IdentityParams);
    CommitIgnored(conv, kind, owner, Without(kw, IdentityParams), nodes, v, CommitArg(kw));
  }

  /** `type`, `country` and `default_vendor` are bound by `create` and
      `modify` and never reach the builder: in particular the `country`
      given to `create` is not the one the Bond builder converts for the
      bond class, which falls back to its own default `''`. */
  lemma IdentityKeysWithheld(conv: Converter, kind: ModelKind, owner: Value, kw: Kwargs, nodes: Nodes,
                             x: string, v: Value)
    requires x == "type" || x == "country" || x == "default_vendor"
    ensures Built(conv, kind, owner, BuilderKw(kw[x := v]), nodes) == Built(conv, kind, owner, BuilderKw(kw), nodes)
    ensures Arg(BuilderKw(kw), "country", PyStr("")) == PyStr("")
  {
    assert BuilderKw(kw[x := v]) == BuilderKw(kw);
  }

  /** The stored tables: identities by code, instruments by primary key with
      the next key the database hands out, and the industry-code nodes. */
  datatype Tables = Tables(ids: map<Value, DataId>, instruments: map<int, Instrument>, nextKey: int, industry: Nodes)

  /** What a call returns, and the tables it leaves. */
  datatype Step<+T> = Step(result: Result<T>, tables: Tables)

  /** Every saved instrument has a key below the next one handed out, and
      every identity is stored under its own code, as a row without the
      in-memory `_new_content`. */
  ghost predicate Sound(ids: map<Value, DataId>, instruments: map<int, Instrument>, nextKey: int) {
    1 <= nextKey &&
    (forall k :: k in instruments ==> 1 <= k < nextKey) &&
    (forall c :: c in ids ==> ids[c].code == c && ids[c].newContent.None?)
  }

  /** `id.instrument`: the stored instrument the identity's reference names,
      if any. */
  function InstrumentOf(instruments: map<int, Instrument>, id: DataId): (k: Option<int>)
    ensures k.Some? <==> id.contentType.Some? && id.objectId.Some? && id.objectId.value in instruments
    ensures k.Some? ==> k == id.objectId
  {
    if id.contentType.Some? && id.objectId.Some? && id.objectId.value in instruments then id.objectId else None
  }

  /** The row `id.save()` writes: `_new_content` is an attribute of the
      object in memory, not a column, so a later lookup does not see it. */
  function Row(id: DataId): DataId {
    id.(newContent := None)
  }

  /** `id.save()` when the call succeeded and `commit` is truthy: the
      identity's row is stored under its code. */
  function Committed(s: Step<DataId>, kw: Kwargs): Step<DataId> {
    if s.result.Ok? && Truthy(CommitArg(kw)) then
      Step(s.result, s.tables.(ids := s.tables.ids[s.result.value.code := Row(s.result.value)]))
    else s
  }

  /** The same outcome, with `created` attached to a returned identity. */
  function Tagged(s: Step<DataId>, created: bool): Step<(DataId, bool)> {
    match s.result
    case Ok(d) => Step(Ok((d, created)), s.tables)
    case Err(e) => Step(Err(e), s.tables)
  }

  /** `model.objects.create` on a content type with no model class. */
  const NoObjects: Error := AttributeError("'NoneType' object has no attribute 'objects'")
  /** `inst.id` with no current instrument. */
  const NoId: Error := AttributeError("'NoneType' object has no attribute 'id'")

  /** `obj.save()` of a built record on the tables `t`: stored under the
      next key; a failed record stores nothing. */
  function Stored(t: Tables, rec: Result<Instrument>): Step<Content> {
    match rec
    case Err(e) => Step(Err(e), t)
    case Ok(x) => Step(Ok(Saved(t.nextKey)), t.(instruments := t.instruments[t.nextKey := x], nextKey := t.nextKey + 1))
  }

  /** `c` is what became of the record `rec` of model `kind`: saved under a
      key `before` does not hold, giving `after`, or, for the generic
      security, returned unsaved with the table unchanged. */
  ghost predicate Placed(kind: ModelKind, rec: Instrument, c: Content,
                         before: map<int, Instrument>, after: map<int, Instrument>) {
    if kind == SecurityModel then c == Unsaved(rec) && after == before
    else c.Saved? && c.key !in before && after == before[c.key := rec]
  }

  class Registry {
    /** The conversion service. */
    const convert: Converter
    /** DEFAULT_VENDOR_FOR_SITE. */
    const defaultVendor: Value
    /** The app label identities live under. */
    const appLabel: string
    /** The content-type table. */
    const contentTypes: seq<ContentType>
    /** `inst.ccy()` of an instrument record. */
    const ccyOf: Instrument -> Value

    var ids: map<Value, DataId>
    var instruments: map<int, Instrument>
    var nextKey: int
    var industry: Nodes

    ghost predicate Valid()
      reads this`ids, this`instruments, this`nextKey
    {
      Sound(ids, instruments, nextKey)
    }

    /** The current tables. */
    function State(): Tables
      reads this
    {
      Tables(ids, instruments, nextKey, industry)
    }

    constructor (convert: Converter, defaultVendor: Value, appLabel: string,
                 contentTypes: seq<ContentType>, ccyOf: Instrument -> Value)
      ensures Valid()
      ensures this.convert == convert && this.defaultVendor == defaultVendor
      ensures this.appLabel == appLabel && this.contentTypes == contentTypes && this.ccyOf == ccyOf
      ensures ids == map[] && instruments == map[] && industry == map[]
    {
      this.convert := convert;
      this.defaultVendor := defaultVendor;
      this.appLabel := appLabel;
      this.contentTypes := contentTypes;
      this.ccyOf := ccyOf;
      ids := map[];
      instruments := map[];
      nextKey := 1;
      industry := map[];
    }

    /** `for_type(type)`: the codes of the stored identities whose content type
        is the one `type` names; empty, not an error, when `type` names no
        single content type. */
    function ForType(t: Value): (r: set<Value>)
      reads this
      ensures CtFromType(contentTypes, appLabel, t).None? ==> r == {}
      ensures forall c :: c in r <==>
        c in ids && CtFromType(contentTypes, appLabel, t).Some? &&
        ids[c].contentType == CtFromType(contentTypes, appLabel, t)
    {
      match CtFromType(contentTypes, appLabel, t)
      case None => {}
      case Some(ct) => set c | c in ids && ids[c].contentType == Some(ct)
    }

    /** Where `ctmodel` raises for an unavailable type, `for_type` yields nothing. */
    lemma ForTypeNeverRaises(t: Value)
      requires CtModel(contentTypes, appLabel, t).Err?
      ensures ForType(t) == {}
    {
    }

    /** `obj.save()` of a new instrument: it gets the next primary key. */
    method Save(inst: Instrument) returns (key: int)
      requires Valid()
      modifies this`instruments, this`nextKey
      ensures Valid()
      ensures key == old(nextKey) && key !in old(instruments) && nextKey == old(nextKey) + 1
      ensures instruments == old(instruments)[key := inst]
    {
      key := nextKey;
      instruments := instruments[key := inst];
      nextKey := nextKey + 1;
    }

    /** `IndustryCodeManager.create(sector, sectorid, group, groupid)`. */
    method IndustryCreate(sector: Value, sectorid: Value, group: Value, groupid: Value)
      returns (r: Result<Option<int>>)
      modifies this`industry
      ensures Linked(r, industry) == Link(old(industry), sector, sectorid, group, groupid)
    {
      ghost var spec := Link(industry, sector, sectorid, group, groupid);
      if !AllGiven(sector, sectorid, group, groupid) {
        return Ok(None);
      }
      var sid, gid := ParseInt(sectorid), ParseInt(groupid);
      if sid.None? || gid.None? {
        return Ok(None);
      }
      var withSector := GetOrCreateNode(industry, sid.value, sector);
      if withSector.Err? {
        assert spec == Linked(Err(withSector.error), industry);
        return Err(withSector.error);
      }
      industry := withSector.value;
      var withGroup := GetOrCreateNode(industry, gid.value, group);
      if withGroup.Err? {
        assert spec == Linked(Err(withGroup.error), industry);
        return Err(withGroup.error);
      }
      // link the group to its sector node and save it
      industry := withGroup.value[gid.value := Node(group, Some(sid.value))];
      r := Ok(Some(gid.value));
      assert spec == Linked(r, industry);
    }

    /** `model.objects.create(id, **kw)` on the tables `t`: the builder's
        record is saved under the next key, except the generic security's,
        which the Security builder returns unsaved; the Equity builder's
        links stay even when the record fails. */
    ghost function BuildOutcome(t: Tables, kind: ModelKind, owner: Value, kw: Kwargs): Step<Content> {
      var b := Built(convert, kind, owner, kw, t.industry);
      var linked := t.(industry := b.nodes);
      if kind == SecurityModel then
        match b.record
        case Err(e) => Step(Err(e), linked)
        case Ok(rec) => Step(Ok(Unsaved(rec)), linked)
      else Stored(linked, b.record)
    }

    /** `SecurityManager.create`: the record is made but not saved. */
    method BuildSecurity(id: DataId, kw: Kwargs) returns (r: Result<Content>)
      ensures Step(r, State()) == BuildOutcome(State(), SecurityModel, id.code, kw)
    {
      var base :- SecurityRecord(convert, id.code, kw);
      r := Ok(Unsaved(Generic(base)));
    }

    /** `EtfManager.create`: the record is saved whatever `commit` says. */
    method BuildEtf(id: DataId, kw: Kwargs) returns (r: Result<Content>)
      requires Valid()
      modifies this`instruments, this`nextKey
      ensures Valid()
      ensures Step(r, State()) == BuildOutcome(old(State()), EtfModel, id.code, kw)
    {
      var obj :- EtfRecord(convert, id.code, kw);
      var key := Save(obj);
      r := Ok(Saved(key));
    }

    /** `FundManager.create`. */
    method BuildFund(id: DataId, kw: Kwargs) returns (r: Result<Content>)
      requires Valid()
      modifies this`instruments, this`nextKey
      ensures Valid()
      ensures Step(r, State()) == BuildOutcome(old(State()), FundModel, id.code, kw)
    {
      var obj :- FundRecord(convert, id.code, kw);
      var key := Save(obj);
      r := Ok(Saved(key));
    }

    /** `EquityManager.create`: without an `industry_code`, the instrument is
        classified first, and that classification stays even if a later
        conversion raises. */
    method BuildEquity(id: DataId, kw: Kwargs) returns (r: Result<Content>)
      requires Valid()
      modifies this`instruments, this`nextKey, this`industry
      ensures Valid()
      ensures Step(r, State()) == BuildOutcome(old(State()), EquityModel, id.code, kw)
    {
      var ic := Arg(kw, "industry_code", PyNone);
      if !Truthy(ic) {
        var node :- IndustryCreate(Arg(kw, "sector", PyNone), Arg(kw, "sectorid", PyNone),
                                   Arg(kw, "group", PyNone), Arg(kw, "groupid", PyNone));
        ic := if node.Some? then PyObj(node.value) else PyNone;
      }
      var obj :- EquityRecord(convert, id.code, ic, kw);
      var key := Save(obj);
      r := Ok(Saved(key));
    }

    /** `BondManager.create`: collects the `bondclass` bag from the keywords
        it does not bind, then builds and saves the record. */
    method BuildBond(id: DataId, kw: Kwargs) returns (r: Result<Content>)
      requires Valid()
      modifies this`instruments, this`nextKey
      ensures Valid()
      ensures Step(r, State()) == BuildOutcome(old(State()), BondModel, id.code, kw)
    {
      var bck, isu := CollectBags(Without(kw, BondParams));
      var obj := BondFrom(convert, SecurityRecord(convert, id.code, Without(kw, BondParams)), BondTermsOf(convert, kw),
                          Arg(kw, "curncy", PyStr("")), Arg(kw, "country", PyStr("")), Arg(kw, "bondclass__code", PyNone),
                          Arg(kw, "multiplier", PyFloat(0.01)), Arg(kw, "settlement_delay", PyInt(3)), bck);
      if obj.Err? {
        return Err(obj.error);
      }
      var key := Save(obj.value);
      r := Ok(Saved(key));
    }

    /** `model.objects.create(id, **kw)` for the model a content type names. */
    method Build(kind: ModelKind, id: DataId, kw: Kwargs) returns (r: Result<Content>)
      requires Valid()
      modifies this`instruments, this`nextKey, this`industry
      ensures Valid()
      ensures Step(r, State()) == BuildOutcome(old(State()), kind, id.code, kw)
    {
      match kind
      case SecurityModel => r := BuildSecurity(id, kw);
      case EtfModel => r := BuildEtf(id, kw);
      case FundModel => r := BuildFund(id, kw);
      case EquityModel => r := BuildEquity(id, kw);
      case BondModel => r := BuildBond(id, kw);
    }

    /** The vendor (or the site default) and the country `create` stores convert. */
    ghost predicate IdentityConverts(kw: Kwargs) {
      Convert(convert, Vendor, Or(Arg(kw, "default_vendor", PyNone), defaultVendor)).Ok? &&
      Convert(convert, Country, Arg(kw, "country", PyNone)).Ok?
    }

    /** A call to a builder on sound tables: the result is the builder's,
        only the Equity builder's links change the industry table, a failed
        record leaves the instrument table alone, and a built one is placed
        under a fresh key (or returned unsaved for the generic security). */
    lemma BuildStores(t: Tables, kind: ModelKind, owner: Value, kw: Kwargs)
      requires Sound(t.ids, t.instruments, t.nextKey)
      ensures var b := Built(convert, kind, owner, kw, t.industry);
        var s := BuildOutcome(t, kind, owner, kw);
        (s.result.Ok? <==> b.record.Ok?) && s.tables.ids == t.ids && s.tables.industry == b.nodes &&
        (s.result.Err? ==> s.result.error == b.record.error &&
                           s.tables.instruments == t.instruments && s.tables.nextKey == t.nextKey) &&
        (s.result.Ok? ==> Placed(kind, b.record.value, s.result.value, t.instruments, s.tables.instruments)) &&
        Sound(s.tables.ids, s.tables.instruments, s.tables.nextKey)
    {
    }

    /** `DataIdManager.create(id, commit=True, type=None, country=None,
        default_vendor=None, **kwargs)` on the tables `t`. */
    ghost function CreateOutcome(t: Tables, id: DataId, kw: Kwargs): Step<DataId> {
      match CtModel(contentTypes, appLabel, TypeArg(kw))
      case Err(e) => Step(Err(e), t)
      case Ok(res) =>
        match Convert(convert, Vendor, Or(Arg(kw, "default_vendor", PyNone), defaultVendor))
        case Err(e) => Step(Err(e), t)
        case Ok(vendor) =>
          match Convert(convert, Country, Arg(kw, "country", PyNone))
          case Err(e) => Step(Err(e), t)
          case Ok(country) =>
            var updated := id.(defaultVendor := vendor, country := country);
            if res.ct.None? then Committed(Step(Ok(updated), t), kw)
            else if res.model.None? then Step(Err(NoObjects), t)
            else
              var s := BuildOutcome(t, res.model.value, id.code, BuilderKw(kw));
              match s.result
              case Err(e) => Step(Err(e), s.tables)
              case Ok(c) => Committed(Step(Ok(updated.(newContent := Some(c), contentType := res.ct)), s.tables), kw)
    }

    method Create(id: DataId, kw: Kwargs) returns (r: Result<DataId>)
      requires Valid()
      modifies this
      ensures Valid()
      ensures Step(r, State()) == CreateOutcome(old(State()), id, kw)
    {
      var resolved :- CtModel(contentTypes, appLabel, TypeArg(kw));
      var vendor :- Convert(convert, Vendor, Or(Arg(kw, "default_vendor", PyNone), defaultVendor));
      var country :- Convert(convert, Country, Arg(kw, "country", PyNone));
      var updated := id.(defaultVendor := vendor, country := country);
      if resolved.ct.Some? {
        if resolved.model.None? {
          return Err(NoObjects);
        }
        var content :- Build(resolved.model.value, updated, BuilderKw(kw));
        updated := updated.(newContent := Some(content), contentType := resolved.ct);
      }
      if Truthy(CommitArg(kw)) {
        ids := ids[updated.code := Row(updated)];
      }
      r := Ok(updated);
    }

    /** `create` succeeds exactly when the type resolves, the vendor and
        country convert, and, for a type with a content type, the model
        class exists and its builder's record builds. */
    lemma CreateSucceeds(t: Tables, id: DataId, kw: Kwargs)
      ensures var res := CtModel(contentTypes, appLabel, TypeArg(kw));
        CreateOutcome(t, id, kw).result.Ok? <==>
          res.Ok? && IdentityConverts(kw) &&
          (res.value.ct.Some? ==>
             (res.value.model.Some? &&
              Built(convert, res.value.model.value, id.code, BuilderKw(kw), t.industry).record.Ok?))
    {
    }

    /** What `create` leaves in the tables: nothing changes before the
        builder runs; the builder's links stay and its record is stored
        (unless it is a generic security) whether or not `commit` is set;
        the identity is stored exactly when the call succeeds with `commit`
        truthy. */
    lemma CreateTables(t: Tables, id: DataId, kw: Kwargs)
      requires Sound(t.ids, t.instruments, t.nextKey)
      ensures var s := CreateOutcome(t, id, kw);
        s.tables.ids == if s.result.Ok? && Truthy(CommitArg(kw)) then t.ids[id.code := Row(s.result.value)] else t.ids
      ensures var s, res := CreateOutcome(t, id, kw), CtModel(contentTypes, appLabel, TypeArg(kw));
        res.Err? ==> s == Step(Err(res.error), t) && res.error.ValueError?
      ensures var s, res := CreateOutcome(t, id, kw), CtModel(contentTypes, appLabel, TypeArg(kw));
        !IdentityConverts(kw) || (res.Ok? && res.value.model.None?) ==>
          s.tables.instruments == t.instruments && s.tables.nextKey == t.nextKey && s.tables.industry == t.industry
      ensures var s, res := CreateOutcome(t, id, kw), CtModel(contentTypes, appLabel, TypeArg(kw));
        res.Ok? && res.value.ct.Some? && res.value.model.None? && IdentityConverts(kw) ==> s.result == Err(NoObjects)
      ensures var s, res := CreateOutcome(t, id, kw), CtModel(contentTypes, appLabel, TypeArg(kw));
        res.Ok? && res.value.model.Some? && IdentityConverts(kw) ==>
          var b := Built(convert, res.value.model.value, id.code, BuilderKw(kw), t.industry);
          s.tables.industry == b.nodes &&
          (b.record.Err? ==> s.result == Err(b.record.error) && s.tables.instruments == t.instruments) &&
          (b.record.Ok? ==>
             (s.result.Ok? && s.result.value.contentType == res.value.ct &&
              s.result.value.newContent.Some? &&
              Placed(res.value.model.value, b.record.value, s.result.value.newContent.value,
                     t.instruments, s.tables.instruments)))
    {
      var res := CtModel(contentTypes, appLabel, TypeArg(kw));
      if res.Ok? && res.value.model.Some? && IdentityConverts(kw) {
        BuildStores(t, res.value.model.value, id.code, BuilderKw(kw));
      }
    }

    /** The identity `create` returns: the converted vendor (`default_vendor`
        or the site default) and country, the code, reference and currency
        it had, and, with no type, the content fields it had. */
    lemma CreateIdentity(t: Tables, id: DataId, kw: Kwargs)
      ensures var r := CreateOutcome(t, id, kw).result;
        r.Ok? ==>
          Convert(convert, Vendor, Or(Arg(kw, "default_vendor", PyNone), defaultVendor)) == Ok(r.value.defaultVendor) &&
          Convert(convert, Country, Arg(kw, "country", PyNone)) == Ok(r.value.country) &&
          r.value.code == id.code && r.value.objectId == id.objectId && r.value.curncy == id.curncy
      ensures var r, res := CreateOutcome(t, id, kw).result, CtModel(contentTypes, appLabel, TypeArg(kw));
        r.Ok? && res.Ok? && res.value.ct.None? ==>
          r.value.contentType == id.contentType && r.value.newContent == id.newContent
    {
    }

    /** The content part of `modify` on the tables `t`: the current
        instrument, if any, is deleted before the new one is built; the
        identity then takes `object_id` from the deleted instance, whose key
        Django has cleared, and that instance's currency; with no current
        instrument, `inst.id` raises after the new one is saved. */
    ghost function ReplaceOutcome(t: Tables, model: Option<ModelKind>, ct: ContentType, id: DataId, kw: Kwargs): Step<DataId> {
      var inst := InstrumentOf(t.instruments, id);
      var deleted := if inst.Some? then t.(instruments := t.instruments - {inst.value}) else t;
      if model.None? then Step(Err(NoObjects), deleted)
      else
        var s := BuildOutcome(deleted, model.value, id.code, BuilderKw(kw));
        match s.result
        case Err(e) => Step(Err(e), s.tables)
        case Ok(c) =>
          if inst.None? then Step(Err(NoId), s.tables)
          else Step(Ok(id.(newContent := Some(c), contentType := Some(ct), objectId := None,
                           curncy := ccyOf(t.instruments[inst.value]))), s.tables)
    }

    method ReplaceContent(model: Option<ModelKind>, ct: ContentType, id: DataId, kw: Kwargs)
      returns (r: Result<DataId>)
      requires Valid()
      modifies this`instruments, this`nextKey, this`industry
      ensures Valid()
      ensures Step(r, State()) == ReplaceOutcome(old(State()), model, ct, id, kw)
    {
      var inst := InstrumentOf(instruments, id);
      var current := instruments;
      if inst.Some? {
        instruments := instruments - {inst.value};
      }
      if model.None? {
        return Err(NoObjects);
      }
      var content :- Build(model.value, id, BuilderKw(kw));
      if inst.None? {
        return Err(NoId);
      }
      r := Ok(id.(newContent := Some(content), contentType := Some(ct), objectId := None,
                  curncy := ccyOf(current[inst.value])));
    }

    /** `if v: field = convert(kind, v)`: a falsy value keeps `current`. */
    function ConvertGiven(kind: Kind, v: Value, current: Value): Result<Value> {
      if Truthy(v) then Convert(convert, kind, v) else Ok(current)
    }

    /** `DataIdManager.modify(id, commit=True, type=None, country=None,
        default_vendor=None, **kwargs)` on the tables `t`. */
    ghost function ModifyOutcome(t: Tables, id: DataId, kw: Kwargs): Step<DataId> {
      match CtModel(contentTypes, appLabel, TypeArg(kw))
      case Err(e) => Step(Err(e), t)
      case Ok(res) =>
        match ConvertGiven(Vendor, Arg(kw, "default_vendor", PyNone), id.defaultVendor)
        case Err(e) => Step(Err(e), t)
        case Ok(vendor) =>
          match ConvertGiven(Country, Arg(kw, "country", PyNone), id.country)
          case Err(e) => Step(Err(e), t)
          case Ok(country) =>
            var updated := id.(defaultVendor := vendor, country := country);
            if res.ct.None? then Committed(Step(Ok(updated), t), kw)
            else Committed(ReplaceOutcome(t, res.model, res.ct.value, updated, kw), kw)
    }

    method Modify(id: DataId, kw: Kwargs) returns (r: Result<DataId>)
      requires Valid()
      modifies this
      ensures Valid()
      ensures Step(r, State()) == ModifyOutcome(old(State()), id, kw)
    {
      var resolved :- CtModel(contentTypes, appLabel, TypeArg(kw));
      var updated := id;
      var dv := Arg(kw, "default_vendor", PyNone);
      if Truthy(dv) {
        var vendor :- Convert(convert, Vendor, dv);
        updated := updated.(defaultVendor := vendor);
      }
      var country := Arg(kw, "country", PyNone);
      if Truthy(country) {
        var c :- Convert(convert, Country, country);
        updated := updated.(country := c);
      }
      if resolved.ct.Some? {
        updated :- ReplaceContent(resolved.model, resolved.ct.value, updated, kw);
      }
      if Truthy(CommitArg(kw)) {
        ids := ids[updated.code := Row(updated)];
      }
      r := Ok(updated);
    }

    /** The vendor and the country `modify` is given convert, where given. */
    ghost predicate GivenConverts(kw: Kwargs) {
      var dv, country := Arg(kw, "default_vendor", PyNone), Arg(kw, "country", PyNone);
      (Truthy(dv) ==> Convert(convert, Vendor, dv).Ok?) &&
      (Truthy(country) ==> Convert(convert, Country, country).Ok?)
    }

    /** The content part of `modify` is reached. */
    ghost predicate ReachesContent(kw: Kwargs) {
      var res := CtModel(contentTypes, appLabel, TypeArg(kw));
      res.Ok? && res.value.ct.Some? && GivenConverts(kw)
    }

    /** `modify` succeeds exactly when the type resolves, the given vendor
        and country convert, and, for a type with a content type, the model
        class exists, its builder's record builds and the identity had an
        instrument. */
    lemma ModifySucceeds(t: Tables, id: DataId, kw: Kwargs)
      ensures var res := CtModel(contentTypes, appLabel, TypeArg(kw));
        ModifyOutcome(t, id, kw).result.Ok? <==>
          res.Ok? && GivenConverts(kw) &&
          (res.value.ct.Some? ==>
             (res.value.model.Some? &&
              Built(convert, res.value.model.value, id.code, BuilderKw(kw), t.industry).record.Ok? &&
              InstrumentOf(t.instruments, id).Some?))
    {
    }

    /** What `modify` leaves in the tables: nothing changes unless the
        content part is reached; then the current instrument is gone, the
        builder's links stay, and its record is stored even when the
        identity had no instrument and `inst.id` raises. */
    lemma ModifyTables(t: Tables, id: DataId, kw: Kwargs)
      requires Sound(t.ids, t.instruments, t.nextKey)
      ensures var s := ModifyOutcome(t, id, kw);
        s.tables.ids == if s.result.Ok? && Truthy(CommitArg(kw)) then t.ids[id.code := Row(s.result.value)] else t.ids
      ensures var s, res := ModifyOutcome(t, id, kw), CtModel(contentTypes, appLabel, TypeArg(kw));
        res.Err? ==> s == Step(Err(res.error), t) && res.error.ValueError?
      ensures var s := ModifyOutcome(t, id, kw);
        !ReachesContent(kw) ==>
          s.tables.instruments == t.instruments && s.tables.nextKey == t.nextKey && s.tables.industry == t.industry
      ensures var s, res := ModifyOutcome(t, id, kw), CtModel(contentTypes, appLabel, TypeArg(kw));
        var gone := InstrumentOf(t.instruments, id);
        var kept := if gone.Some? then t.instruments - {gone.value} else t.instruments;
        ReachesContent(kw) && res.value.model.None? ==>
          s.result == Err(NoObjects) && s.tables.instruments == kept && s.tables.industry == t.industry
      ensures var s, res := ModifyOutcome(t, id, kw), CtModel(contentTypes, appLabel, TypeArg(kw));
        var gone := InstrumentOf(t.instruments, id);
        var kept := if gone.Some? then t.instruments - {gone.value} else t.instruments;
        ReachesContent(kw) && res.value.model.Some? ==>
          var kind := res.value.model.value;
          var b := Built(convert, kind, id.code, BuilderKw(kw), t.industry);
          s.tables.industry == b.nodes &&
          (b.record.Err? ==> s.result == Err(b.record.error) && s.tables.instruments == kept) &&
          (b.record.Ok? && gone.None? ==>
             s.result == Err(NoId) && exists c :: Placed(kind, b.record.value, c, t.instruments, s.tables.instruments)) &&
          (b.record.Ok? && gone.Some? ==>
             s.result.Ok? && s.result.value.contentType == res.value.ct &&
             s.result.value.objectId.None? && s.result.value.curncy == ccyOf(t.instruments[gone.value]) &&
             s.result.value.newContent.Some? &&
             Placed(kind, b.record.value, s.result.value.newContent.value, kept, s.tables.instruments))
    {
      var res := CtModel(contentTypes, appLabel, TypeArg(kw));
      if ReachesContent(kw) && res.value.model.Some? {
        var gone := InstrumentOf(t.instruments, id);
        var deleted := if gone.Some? then t.(instruments := t.instruments - {gone.value}) else t;
        BuildStores(deleted, res.value.model.value, id.code, BuilderKw(kw));
      }
    }

    /** The identity `modify` returns: its code; the vendor and country
        replaced by their conversions only when supplied truthy; and, with
        no type, the reference, currency and content fields it had. */
    lemma ModifyIdentity(t: Tables, id: DataId, kw: Kwargs)
      ensures var r, dv := ModifyOutcome(t, id, kw).result, Arg(kw, "default_vendor", PyNone);
        r.Ok? ==>
          (r.value.code == id.code &&
           (Truthy(dv) ==> Convert(convert, Vendor, dv) == Ok(r.value.defaultVendor)) &&
           (!Truthy(dv) ==> r.value.defaultVendor == id.defaultVendor))
      ensures var r, country := ModifyOutcome(t, id, kw).result, Arg(kw, "country", PyNone);
        r.Ok? ==>
          (Truthy(country) ==> Convert(convert, Country, country) == Ok(r.value.country)) &&
          (!Truthy(country) ==> r.value.country == id.country)
      ensures var r, res := ModifyOutcome(t, id, kw).result, CtModel(contentTypes, appLabel, TypeArg(kw));
        r.Ok? && res.Ok? && res.value.ct.None? ==>
          r.value.contentType == id.contentType && r.value.newContent == id.newContent &&
          r.value.objectId == id.objectId && r.value.curncy == id.curncy
    {
    }

    /** `DataIdManager.get_or_create(**kwargs)` on the tables `t`. */
    ghost function GetOrCreateOutcome(t: Tables, kw: Kwargs): Step<(DataId, bool)> {
      var code := Arg(kw, "code", PyNone);
      if !Truthy(code) then Step(Err(ValueError("cannot add data id, code not specified")), t)
      else
        var rest := Without(kw, {"code"});
        if code in t.ids then Tagged(ModifyOutcome(t, t.ids[code], rest), false)
        else Tagged(CreateOutcome(t.(ids := t.ids[code := Bare(code)]), Bare(code), rest), true)
    }

    /** `get_or_create` on sound tables: a falsy code raises `ValueError` with
        nothing changed; otherwise an identity with the code exists
        afterwards, inserted bare when it was missing, and the call is the
        `modify` of the stored identity or the `create` of the bare one, with
        the flag saying which; no other code's identity changes. */
    lemma GetOrCreateFacts(t: Tables, kw: Kwargs)
      requires Sound(t.ids, t.instruments, t.nextKey)
      ensures var code, s := Arg(kw, "code", PyNone), GetOrCreateOutcome(t, kw);
        !Truthy(code) ==> s.result.Err? && s.result.error.ValueError? && s.tables == t
      ensures var code, s := Arg(kw, "code", PyNone), GetOrCreateOutcome(t, kw);
        Truthy(code) && code in t.ids ==> s == Tagged(ModifyOutcome(t, t.ids[code], Without(kw, {"code"})), false)
      ensures var code, s := Arg(kw, "code", PyNone), GetOrCreateOutcome(t, kw);
        Truthy(code) && code !in t.ids ==>
          s == Tagged(CreateOutcome(t.(ids := t.ids[code := Bare(code)]), Bare(code), Without(kw, {"code"})), true)
      ensures var code, s := Arg(kw, "code", PyNone), GetOrCreateOutcome(t, kw);
        Truthy(code) ==> code in s.tables.ids && s.tables.ids[code].code == code && s.tables.ids[code].newContent.None?
      ensures var code, s := Arg(kw, "code", PyNone), GetOrCreateOutcome(t, kw);
        s.result.Ok? ==> s.result.value.0.code == code && s.result.value.1 == (code !in t.ids)
      ensures var code, s := Arg(kw, "code", PyNone), GetOrCreateOutcome(t, kw);
        s.result.Ok? && Truthy(CommitArg(kw)) ==> s.tables.ids[code] == Row(s.result.value.0)
      ensures var code, s := Arg(kw, "code", PyNone), GetOrCreateOutcome(t, kw);
        Truthy(code) && !(s.result.Ok? && Truthy(CommitArg(kw))) ==>
          s.tables.ids[code] == if code in t.ids then t.ids[code] else Bare(code)
      ensures var code, s := Arg(kw, "code", PyNone), GetOrCreateOutcome(t, kw);
        forall c :: c != code ==> (c in s.tables.ids <==> c in t.ids) && (c in t.ids ==> s.tables.ids[c] == t.ids[c])
    {
      var code := Arg(kw, "code", PyNone);
      if Truthy(code) {
        var rest := Without(kw, {"code"});
        assert CommitArg(rest) == CommitArg(kw);
        if code in t.ids {
          ModifyTables(t, t.ids[code], rest);
          ModifyIdentity(t, t.ids[code], rest);
        } else {
          var t1 := t.(ids := t.ids[code := Bare(code)]);
          CreateTables(t1, Bare(code), rest);
          CreateIdentity(t1, Bare(code), rest);
        }
      }
    }

    method GetOrCreate(kw: Kwargs) returns (r: Result<(DataId, bool)>)
      requires Valid()
      modifies this
      ensures Valid()
      ensures Step(r, State()) == GetOrCreateOutcome(old(State()), kw)
    {
      var code := Arg(kw, "code", PyNone);
      if !Truthy(code) {
        return Err(ValueError("cannot add data id, code not specified"));
      }
      var rest := Without(kw, {"code"});
      if code in ids {
        var modified :- Modify(ids[code], rest);
        r := Ok((modified, false));
      } else {
        ids := ids[code := Bare(code)];
        var created :- Create(Bare(code), rest);
        r := Ok((created, true));
      }
    }
  }
}
