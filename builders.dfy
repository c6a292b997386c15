/** The instrument builders: the shared Security fields and the Etf, Equity,
    Fund and Bond records layered on them, each computed from the builder's
    keyword arguments and the conversion service. */
module Builders {
  import opened Python
  import opened Conversion
  import opened KeySplit
  import opened ContentTypes
  import opened Industry

  /** The fields every instrument gets from the Security builder. `dataid` is
      the owning identity, known by its code. */
  datatype Security = Security(dataid: Value, code: Value, isin: Value, cusip: Value, sedol: Value, exchange: Value)

  /** An instrument record. `Generic` is a record of the security model
      itself, which only the Security builder makes. */
  datatype Instrument =
    | Generic(base: Security)
    | Etf(base: Security, curncy: Value, multiplier: Value, settlementDelay: Value)
    | Equity(base: Security, industryCode: Value, curncy: Value, multiplier: Value,
             settlementDelay: Value, securityType: Value)
    | Fund(base: Security, curncy: Value, multiplier: Value, settlementDelay: Value, securityType: Value)
    | Bond(base: Security, announceDate: Value, firstSettleDate: Value, firstCouponDate: Value,
           accrualDate: Value, maturityDate: Value, collateralType: Value, bondClass: Value,
           multiplier: Value, settlementDelay: Value)

  /** The model a record belongs to. */
  function KindOf(inst: Instrument): ModelKind {
    if inst.Generic? then SecurityModel
    else if inst.Etf? then EtfModel
    else if inst.Equity? then EquityModel
    else if inst.Fund? then FundModel
    else BondModel
  }

  /** `sec` holds what the Security builder makes of `kw` for the identity
      `owner`: the identity's code, the three identifiers as given (default
      ''), and the normalised exchange. */
  ghost predicate BaseFields(conv: Converter, owner: Value, kw: Kwargs, sec: Security) {
    sec.dataid == owner && sec.code == owner &&
    sec.isin == Arg(kw, "ISIN", PyStr("")) &&
    sec.cusip == Arg(kw, "CUSIP", PyStr("")) &&
    sec.sedol == Arg(kw, "SEDOL", PyStr("")) &&
    Convert(conv, Exchange, Arg(kw, "exchange", PyStr(""))) == Ok(sec.exchange)
  }

  /** `multiplier or 1`: a truthy multiplier is kept, a falsy one becomes 1. */
  ghost predicate MultiplierRule(given: Value, stored: Value) {
    (Truthy(given) ==> stored == given) && (!Truthy(given) ==> stored == PyInt(1))
  }

  lemma MultiplierNeverFalsy(given: Value, stored: Value)
    requires MultiplierRule(given, stored)
    ensures Truthy(stored)
  {
  }

  /** `SecurityManager.create(id, ISIN='', CUSIP='', SEDOL='', exchange='', **kwargs)`;
      every other keyword is ignored. */
  function SecurityRecord(conv: Converter, owner: Value, kw: Kwargs): (r: Result<Security>)
    ensures r.Ok? <==> Convert(conv, Exchange, Arg(kw, "exchange", PyStr(""))).Ok?
    ensures r.Ok? ==> BaseFields(conv, owner, kw, r.value)
    ensures r.Err? ==> Convert(conv, Exchange, Arg(kw, "exchange", PyStr(""))) == Err(r.error)
  {
    var exchange :- Convert(conv, Exchange, Arg(kw, "exchange", PyStr("")));
    Ok(Security(owner, owner, Arg(kw, "ISIN", PyStr("")), Arg(kw, "CUSIP", PyStr("")),
                Arg(kw, "SEDOL", PyStr("")), exchange))
  }

  const EtfParams: set<string> := {"curncy", "multiplier", "settlement_delay"}

  /** `EtfManager.create(id, curncy='', multiplier=1, settlement_delay=2, **kwargs)`. */
  function EtfRecord(conv: Converter, owner: Value, kw: Kwargs): (r: Result<Instrument>)
    ensures r.Ok? <==>
      SecurityRecord(conv, owner, Without(kw, EtfParams)).Ok? &&
      Convert(conv, Curncy, Arg(kw, "curncy", PyStr(""))).Ok?
    ensures r.Ok? ==> r.value.Etf? && BaseFields(conv, owner, Without(kw, EtfParams), r.value.base)
    ensures r.Ok? ==> Convert(conv, Curncy, Arg(kw, "curncy", PyStr(""))) == Ok(r.value.curncy)
    ensures r.Ok? ==> MultiplierRule(Arg(kw, "multiplier", PyInt(1)), r.value.multiplier)
    ensures r.Ok? ==> r.value.settlementDelay == Arg(kw, "settlement_delay", PyInt(2))
  {
    var base :- SecurityRecord(conv, owner, Without(kw, EtfParams));
    var curncy :- Convert(conv, Curncy, Arg(kw, "curncy", PyStr("")));
    Ok(Etf(base, curncy, Or(Arg(kw, "multiplier", PyInt(1)), PyInt(1)), Arg(kw, "settlement_delay", PyInt(2))))
  }

  const EquityParams: set<string> :=
    {"curncy", "multiplier", "settlement_delay", "security_type",
     "sector", "sectorid", "group", "groupid", "industry_code"}

  /** The fields `EquityManager.create(id, curncy='', multiplier=1,
      settlement_delay=2, security_type=1, sector, sectorid, group, groupid,
      industry_code, **kwargs)` sets once the industry code is known. */
  function EquityRecord(conv: Converter, owner: Value, industryCode: Value, kw: Kwargs): (r: Result<Instrument>)
    ensures r.Ok? <==>
      SecurityRecord(conv, owner, Without(kw, EquityParams)).Ok? &&
      Convert(conv, Curncy, Arg(kw, "curncy", PyStr(""))).Ok? &&
      Convert(conv, SecurityType, Arg(kw, "security_type", PyInt(1))).Ok?
    ensures r.Ok? ==> r.value.Equity? && BaseFields(conv, owner, Without(kw, EquityParams), r.value.base)
    ensures r.Ok? ==> r.value.industryCode == industryCode
    ensures r.Ok? ==> Convert(conv, Curncy, Arg(kw, "curncy", PyStr(""))) == Ok(r.value.curncy)
    ensures r.Ok? ==> Convert(conv, SecurityType, Arg(kw, "security_type", PyInt(1))) == Ok(r.value.securityType)
    ensures r.Ok? ==> MultiplierRule(Arg(kw, "multiplier", PyInt(1)), r.value.multiplier)
    ensures r.Ok? ==> r.value.settlementDelay == Arg(kw, "settlement_delay", PyInt(2))
  {
    var base :- SecurityRecord(conv, owner, Without(kw, EquityParams));
    var curncy :- Convert(conv, Curncy, Arg(kw, "curncy", PyStr("")));
    var stype :- Convert(conv, SecurityType, Arg(kw, "security_type", PyInt(1)));
    Ok(Equity(base, industryCode, curncy, Or(Arg(kw, "multiplier", PyInt(1)), PyInt(1)),
              Arg(kw, "settlement_delay", PyInt(2)), stype))
  }

  const FundParams: set<string> := {"curncy", "multiplier", "settlement_delay", "security_type"}

  /** `FundManager.create(id, curncy='', multiplier=1, settlement_delay=2,
      security_type=1, **kwargs)`. */
  function FundRecord(conv: Converter, owner: Value, kw: Kwargs): (r: Result<Instrument>)
    ensures r.Ok? <==>
      SecurityRecord(conv, owner, Without(kw, FundParams)).Ok? &&
      Convert(conv, Curncy, Arg(kw, "curncy", PyStr(""))).Ok? &&
      Convert(conv, SecurityType, Arg(kw, "security_type", PyInt(1))).Ok?
    ensures r.Ok? ==> r.value.Fund? && BaseFields(conv, owner, Without(kw, FundParams), r.value.base)
    ensures r.Ok? ==> Convert(conv, Curncy, Arg(kw, "curncy", PyStr(""))) == Ok(r.value.curncy)
    ensures r.Ok? ==> Convert(conv, SecurityType, Arg(kw, "security_type", PyInt(1))) == Ok(r.value.securityType)
    ensures r.Ok? ==> MultiplierRule(Arg(kw, "multiplier", PyInt(1)), r.value.multiplier)
    ensures r.Ok? ==> r.value.settlementDelay == Arg(kw, "settlement_delay", PyInt(2))
  {
    var base :- SecurityRecord(conv, owner, Without(kw, FundParams));
    var curncy :- Convert(conv, Curncy, Arg(kw, "curncy", PyStr("")));
    var stype :- Convert(conv, SecurityType, Arg(kw, "security_type", PyInt(1)));
    Ok(Fund(base, curncy, Or(Arg(kw, "multiplier", PyInt(1)), PyInt(1)), Arg(kw, "settlement_delay", PyInt(2)), stype))
  }

  /** The key splits as `prefix__name` into exactly two pieces. */
  predicate IsPart(k: string, prefix: string) {
    |Split(k)| == 2 && Split(k)[0] == prefix
  }

  lemma PartsInjective(prefix: string)
    ensures forall k1, k2 :: IsPart(k1, prefix) && IsPart(k2, prefix) && Split(k1)[1] == Split(k2)[1] ==> k1 == k2
  {
    forall k1, k2 | IsPart(k1, prefix) && IsPart(k2, prefix) && Split(k1)[1] == Split(k2)[1]
      ensures k1 == k2
    {
      TwoPieces(k1);
      TwoPieces(k2);
    }
  }

  /** The attribute bag `{name: v}` for the keywords `prefix__name = v` among
      the keys `keys` of `kw`. */
  function BagOver(kw: Kwargs, keys: set<string>, prefix: string): Kwargs {
    PartsInjective(prefix);
    map k | k in keys && k in kw && IsPart(k, prefix) :: Split(k)[1] := kw[k]
  }

  /** The attribute bag for `prefix` over all of `kw`. */
  function Bag(kw: Kwargs, prefix: string): Kwargs {
    BagOver(kw, kw.Keys, prefix)
  }

  /** The bag holds, under `name`, exactly the keywords `prefix__name` whose
      key splits into two pieces. */
  lemma BagMeaning(kw: Kwargs, prefix: string)
    ensures forall k :: k in kw && IsPart(k, prefix) ==> Split(k)[1] in Bag(kw, prefix) && Bag(kw, prefix)[Split(k)[1]] == kw[k]
    ensures forall s :: s in Bag(kw, prefix) ==>
      var k := prefix + "__" + s; k in kw && IsPart(k, prefix) && Split(k)[1] == s && Bag(kw, prefix)[s] == kw[k]
  {
    PartsInjective(prefix);
    var b := Bag(kw, prefix);
    forall s | s in b
      ensures var k := prefix + "__" + s; k in kw && IsPart(k, prefix) && Split(k)[1] == s && b[s] == kw[k]
    {
      var k :| k in kw && IsPart(k, prefix) && Split(k)[1] == s;
      TwoPieces(k);
    }
  }

  /** A `bondclass__name` keyword is collected exactly when `name` holds no
      further `__`. */
  lemma ClassKeyCollected(kw: Kwargs, name: string)
    requires "bondclass__" + name in kw
    ensures name in Bag(kw, "bondclass") <==> NoSep(name)
  {
    var p := "bondclass";
    assert NoSep(p);
    assert p + "__" + name == "bondclass__" + name;
    PrefixedKey(p, name);
    BagMeaning(kw, p);
  }

  /** Every qualifying key among `keys` has its entry in the bag. */
  lemma InBagOver(kw: Kwargs, keys: set<string>, prefix: string, k: string)
    requires k in keys && k in kw && IsPart(k, prefix)
    ensures Split(k)[1] in BagOver(kw, keys, prefix)
    ensures BagOver(kw, keys, prefix)[Split(k)[1]] == kw[k]
  {
    PartsInjective(prefix);
  }

  /** Every entry of the bag comes from a qualifying key among `keys`. */
  lemma FromBagOver(kw: Kwargs, keys: set<string>, prefix: string, s: string) returns (k: string)
    requires s in BagOver(kw, keys, prefix)
    ensures k in keys && k in kw && IsPart(k, prefix) && Split(k)[1] == s
    ensures BagOver(kw, keys, prefix)[s] == kw[k]
  {
    PartsInjective(prefix);
    k :| k in keys && k in kw && IsPart(k, prefix) && Split(k)[1] == s;
  }

  /** The bag after one more key: the bag before, plus that key's entry when
      it qualifies. */
  function StepBag(kw: Kwargs, done: set<string>, k: string, prefix: string): Kwargs
    requires k in kw
  {
    var before := BagOver(kw, done, prefix);
    if IsPart(k, prefix) then before[Split(k)[1] := kw[k]] else before
  }

  lemma StepBagCovers(kw: Kwargs, done: set<string>, k: string, prefix: string)
    requires k in kw && k !in done
    ensures forall s :: s in BagOver(kw, done + {k}, prefix) ==>
      s in StepBag(kw, done, k, prefix) && BagOver(kw, done + {k}, prefix)[s] == StepBag(kw, done, k, prefix)[s]
  {
    var a := BagOver(kw, done + {k}, prefix);
    var b := StepBag(kw, done, k, prefix);
    forall s | s in a
      ensures s in b && a[s] == b[s]
    {
      PartsInjective(prefix);
      var k' := FromBagOver(kw, done + {k}, prefix, s);
      if k' != k {
        InBagOver(kw, done, prefix, k');
      }
    }
  }

  lemma StepBagWithin(kw: Kwargs, done: set<string>, k: string, prefix: string)
    requires k in kw && k !in done
    ensures forall s :: s in StepBag(kw, done, k, prefix) ==> s in BagOver(kw, done + {k}, prefix)
  {
    var b := StepBag(kw, done, k, prefix);
    forall s | s in b
      ensures s in BagOver(kw, done + {k}, prefix)
    {
      if IsPart(k, prefix) && s == Split(k)[1] {
        InBagOver(kw, done + {k}, prefix, k);
      } else {
        var k' := FromBagOver(kw, done, prefix, s);
        InBagOver(kw, done + {k}, prefix, k');
      }
    }
  }

  lemma BagOverStep(kw: Kwargs, done: set<string>, k: string, prefix: string)
    requires k in kw && k !in done
    ensures BagOver(kw, done + {k}, prefix) == StepBag(kw, done, k, prefix)
  {
    StepBagCovers(kw, done, k, prefix);
    StepBagWithin(kw, done, k, prefix);
  }

  /** The loop of `BondManager.create` over its `**kwargs`: keys that split on
      `__` into exactly two pieces go into the `bondclass` bag or the `issuer`
      bag by their first piece; every other key is skipped. */
  method CollectBags(kw: Kwargs) returns (bck: Kwargs, isu: Kwargs)
    ensures bck == Bag(kw, "bondclass")
    ensures isu == Bag(kw, "issuer")
  {
    bck, isu := map[], map[];
    var todo := kw.Keys;
    while todo != {}
      invariant todo <= kw.Keys
      invariant bck == BagOver(kw, kw.Keys - todo, "bondclass")
      invariant isu == BagOver(kw, kw.Keys - todo, "issuer")
      decreases |todo|
    {
      var k :| k in todo;
      BagOverStep(kw, kw.Keys - todo, k, "bondclass");
      BagOverStep(kw, kw.Keys - todo, k, "issuer");
      var ks := Split(k);
      if |ks| == 2 {
        if ks[0] == "bondclass" {
          bck := bck[ks[1] := kw[k]];
        } else if ks[0] == "issuer" {
          isu := isu[ks[1] := kw[k]];
        }
      }
      assert kw.Keys - (todo - {k}) == (kw.Keys - todo) + {k};
      todo := todo - {k};
    }
  }

  const BondParams: set<string> :=
    {"curncy", "country", "bondclass__code", "collateral_type", "announce_date",
     "first_settle_date", "first_coupon_date", "accrual_date", "maturity_date",
     "multiplier", "settlement_delay"}

  /** The keyword context of `convert('bondclass', code, curncy=ccy,
      country=country, **bck)`; a bag entry named `curncy` or `country` is a
      second value for that keyword, which Python rejects. */
  function ClassContext(ccy: Value, country: Value, bck: Kwargs): (r: Result<Kwargs>)
    ensures r.Ok? <==> "curncy" !in bck && "country" !in bck
    ensures r.Err? ==> r.error.TypeError?
    ensures r.Ok? ==> r.value.Keys == bck.Keys + {"curncy", "country"}
    ensures r.Ok? ==> r.value["curncy"] == ccy && r.value["country"] == country
    ensures r.Ok? ==> forall s :: s in bck ==> r.value[s] == bck[s]
  {
    if "curncy" in bck || "country" in bck then Err(TypeError("multiple values for keyword argument"))
    else Ok(bck + map["curncy" := ccy, "country" := country])
  }

  /** The five bond dates and the collateral type, normalised in that order. */
  datatype BondTerms = BondTerms(announceDate: Value, firstSettleDate: Value, firstCouponDate: Value,
                                 accrualDate: Value, maturityDate: Value, collateralType: Value)

  function BondTermsOf(conv: Converter, kw: Kwargs): (r: Result<BondTerms>)
    ensures r.Ok? <==>
      Convert(conv, BondDate, Arg(kw, "announce_date", PyNone)).Ok? &&
      Convert(conv, BondDate, Arg(kw, "first_settle_date", PyNone)).Ok? &&
      Convert(conv, BondDate, Arg(kw, "first_coupon_date", PyNone)).Ok? &&
      Convert(conv, BondDate, Arg(kw, "accrual_date", PyNone)).Ok? &&
      Convert(conv, BondDate, Arg(kw, "maturity_date", PyNone)).Ok? &&
      Convert(conv, Collateral, Arg(kw, "collateral_type", PyNone)).Ok?
    ensures r.Ok? ==>
      Convert(conv, BondDate, Arg(kw, "announce_date", PyNone)) == Ok(r.value.announceDate) &&
      Convert(conv, BondDate, Arg(kw, "first_settle_date", PyNone)) == Ok(r.value.firstSettleDate) &&
      Convert(conv, BondDate, Arg(kw, "first_coupon_date", PyNone)) == Ok(r.value.firstCouponDate) &&
      Convert(conv, BondDate, Arg(kw, "accrual_date", PyNone)) == Ok(r.value.accrualDate) &&
      Convert(conv, BondDate, Arg(kw, "maturity_date", PyNone)) == Ok(r.value.maturityDate) &&
      Convert(conv, Collateral, Arg(kw, "collateral_type", PyNone)) == Ok(r.value.collateralType)
  {
    var announce :- Convert(conv, BondDate, Arg(kw, "announce_date", PyNone));
    var firstSettle :- Convert(conv, BondDate, Arg(kw, "first_settle_date", PyNone));
    var firstCoupon :- Convert(conv, BondDate, Arg(kw, "first_coupon_date", PyNone));
    var accrual :- Convert(conv, BondDate, Arg(kw, "accrual_date", PyNone));
    var maturity :- Convert(conv, BondDate, Arg(kw, "maturity_date", PyNone));
    var collateral :- Convert(conv, Collateral, Arg(kw, "collateral_type", PyNone));
    Ok(BondTerms(announce, firstSettle, firstCoupon, accrual, maturity, collateral))
  }

  /** `BondManager.create(id, curncy='', country='', bondclass__code=None,
      collateral_type=None, the five dates=None, multiplier=0.01,
      settlement_delay=3, **kwargs)`, given the `bondclass` bag `bck` its loop
      collects. */
  function BondRecord(conv: Converter, owner: Value, kw: Kwargs, bck: Kwargs): (r: Result<Instrument>)
    ensures r.Ok? <==>
      var ccy := Convert(conv, Curncy, Arg(kw, "curncy", PyStr("")));
      var country := Convert(conv, Country, Arg(kw, "country", PyStr("")));
      SecurityRecord(conv, owner, Without(kw, BondParams)).Ok? && BondTermsOf(conv, kw).Ok? &&
      ccy.Ok? && country.Ok? && "curncy" !in bck && "country" !in bck &&
      conv(BondClass, Arg(kw, "bondclass__code", PyNone), bck + map["curncy" := ccy.value, "country" := country.value]).Ok?
    ensures r.Ok? ==> r.value.Bond? && BaseFields(conv, owner, Without(kw, BondParams), r.value.base)
    ensures r.Ok? ==> (BondTermsOf(conv, kw) ==
      Ok(BondTerms(r.value.announceDate, r.value.firstSettleDate, r.value.firstCouponDate,
                   r.value.accrualDate, r.value.maturityDate, r.value.collateralType)))
    ensures r.Ok? ==>
      var ccy := Convert(conv, Curncy, Arg(kw, "curncy", PyStr("")));
      var country := Convert(conv, Country, Arg(kw, "country", PyStr("")));
      ccy.Ok? && country.Ok? && "curncy" !in bck && "country" !in bck &&
      conv(BondClass, Arg(kw, "bondclass__code", PyNone), bck + map["curncy" := ccy.value, "country" := country.value])
        == Ok(r.value.bondClass)
    ensures r.Ok? ==> MultiplierRule(Arg(kw, "multiplier", PyFloat(0.01)), r.value.multiplier)
    ensures r.Ok? ==> r.value.settlementDelay == Arg(kw, "settlement_delay", PyInt(3))
    ensures "curncy" in bck || "country" in bck ==> r.Err?
  {
    BondFrom(conv, SecurityRecord(conv, owner, Without(kw, BondParams)), BondTermsOf(conv, kw),
             Arg(kw, "curncy", PyStr("")), Arg(kw, "country", PyStr("")), Arg(kw, "bondclass__code", PyNone),
             Arg(kw, "multiplier", PyFloat(0.01)), Arg(kw, "settlement_delay", PyInt(3)), bck)
  }

  /** The steps of the Bond builder after the keywords are bound, in the
      order the builder takes them. */
  function BondFrom(conv: Converter, base: Result<Security>, terms: Result<BondTerms>, curncy: Value,
                    country: Value, classCode: Value, multiplier: Value, delay: Value, bck: Kwargs): Result<Instrument>
  {
    var base :- base;
    var terms :- terms;
    var ccy :- Convert(conv, Curncy, curncy);
    var country :- Convert(conv, Country, country);
    var context :- ClassContext(ccy, country, bck);
    var bondClass :- conv(BondClass, classCode, context);
    Ok(Bond(base, terms.announceDate, terms.firstSettleDate, terms.firstCouponDate, terms.accrualDate,
            terms.maturityDate, terms.collateralType, bondClass, Or(multiplier, PyInt(1)), delay))
  }

  /** Not a second Bond semantics: `BondRecord` over the bag the builder
      collects, written without `BondRecord`'s contract so that proofs about
      `Built` open that contract only where they need it
      (`BondBuiltIsRecord`). */
  function BondBuilt(conv: Converter, owner: Value, kw: Kwargs): Result<Instrument> {
    BondFrom(conv, SecurityRecord(conv, owner, Without(kw, BondParams)), BondTermsOf(conv, kw),
             Arg(kw, "curncy", PyStr("")), Arg(kw, "country", PyStr("")), Arg(kw, "bondclass__code", PyNone),
             Arg(kw, "multiplier", PyFloat(0.01)), Arg(kw, "settlement_delay", PyInt(3)), ClassBag(kw))
  }

  lemma BondBuiltIsRecord(conv: Converter, owner: Value, kw: Kwargs)
    ensures BondBuilt(conv, owner, kw) == BondRecord(conv, owner, kw, ClassBag(kw))
  {
  }

  /** The `bondclass` bag the Bond builder collects from its `**kwargs`. */
  function ClassBag(kw: Kwargs): Kwargs {
    Bag(Without(kw, BondParams), "bondclass")
  }

  /** `bondclass__code` is a named parameter, so the bag never holds `code`. */
  lemma ClassBagHasNoCode(kw: Kwargs)
    ensures "code" !in ClassBag(kw)
  {
    var rest := Without(kw, BondParams);
    BagMeaning(rest, "bondclass");
    assert "bondclass" + "__" + "code" == "bondclass__code";
    assert "bondclass__code" !in rest;
  }

  /** What a builder does: the record it produces, and the industry-code table
      afterwards (only the Equity builder may change it, by classifying the
      instrument when no `industry_code` is supplied). */
  datatype Building = Building(record: Result<Instrument>, nodes: Nodes)

  /** The parameters a subtype builder binds by name; the rest reach the
      Security builder, which a security type calls directly. */
  function ParamsOf(kind: ModelKind): set<string> {
    match kind
    case SecurityModel => {}
    case EtfModel => EtfParams
    case EquityModel => EquityParams
    case FundModel => FundParams
    case BondModel => BondParams
  }

  /** The Equity builder: without a truthy `industry_code` it first links the
      sector and group it is given; a raised integrity error propagates, and
      a soft failure leaves the industry code None. */
  function EquityBuilt(conv: Converter, owner: Value, kw: Kwargs, nodes: Nodes): (b: Building)
    ensures var ic := Arg(kw, "industry_code", PyNone);
      Truthy(ic) ==> b == Building(EquityRecord(conv, owner, ic, kw), nodes)
    ensures var linked := Link(nodes, Arg(kw, "sector", PyNone), Arg(kw, "sectorid", PyNone),
                               Arg(kw, "group", PyNone), Arg(kw, "groupid", PyNone));
      !Truthy(Arg(kw, "industry_code", PyNone)) ==> (
        b.nodes == linked.nodes &&
        (linked.result.Err? ==> b.record == Err(linked.result.error)) &&
        (linked.result.Ok? ==>
          b.record == EquityRecord(conv, owner, if linked.result.value.Some? then PyObj(linked.result.value.value) else PyNone, kw)))
  {
    var ic := Arg(kw, "industry_code", PyNone);
    if Truthy(ic) then Building(EquityRecord(conv, owner, ic, kw), nodes)
    else
      var linked := Link(nodes, Arg(kw, "sector", PyNone), Arg(kw, "sectorid", PyNone),
                         Arg(kw, "group", PyNone), Arg(kw, "groupid", PyNone));
      match linked.result
      case Err(e) => Building(Err(e), linked.nodes)
      case Ok(g) => Building(EquityRecord(conv, owner, if g.Some? then PyObj(g.value) else PyNone, kw), linked.nodes)
  }

  /** The Security builder's record as a record of the security model. */
  function GenericRecord(conv: Converter, owner: Value, kw: Kwargs): Result<Instrument> {
    var base :- SecurityRecord(conv, owner, kw);
    Ok(Generic(base))
  }

  /** `model.objects.create(id, **kw)` for the model `kind`. */
  function Built(conv: Converter, kind: ModelKind, owner: Value, kw: Kwargs, nodes: Nodes): (b: Building)
    ensures kind != EquityModel || Truthy(Arg(kw, "industry_code", PyNone)) ==> b.nodes == nodes
  {
    match kind
    case SecurityModel => Building(GenericRecord(conv, owner, kw), nodes)
    case EtfModel => Building(EtfRecord(conv, owner, kw), nodes)
    case FundModel => Building(FundRecord(conv, owner, kw), nodes)
    case BondModel => Building(BondBuilt(conv, owner, kw), nodes)
    case EquityModel => EquityBuilt(conv, owner, kw, nodes)
  }

  /** Each builder makes a record of its own model. */
  lemma BuiltKind(conv: Converter, kind: ModelKind, owner: Value, kw: Kwargs, nodes: Nodes)
    ensures var b := Built(conv, kind, owner, kw, nodes);
      b.record.Ok? ==> KindOf(b.record.value) == kind
  {
    var b := Built(conv, kind, owner, kw, nodes);
    if b.record.Ok? {
      match kind
      case SecurityModel => assert b.record.value.Generic?;
      case EtfModel => assert b.record.value.Etf?;
      case FundModel => assert b.record.value.Fund?;
      case BondModel =>
        BondBuiltIsRecord(conv, owner, kw);
        assert b.record.value.Bond?;
      case EquityModel => assert b.record.value.Equity?;
    }
  }

  /** Each builder takes its base record from the keywords it does not bind. */
  lemma BuiltBase(conv: Converter, kind: ModelKind, owner: Value, kw: Kwargs, nodes: Nodes)
    ensures var b := Built(conv, kind, owner, kw, nodes);
      b.record.Ok? ==> BaseFields(conv, owner, Without(kw, ParamsOf(kind)), b.record.value.base)
  {
    match kind
    case SecurityModel =>
    case EtfModel =>
    case FundModel =>
    case BondModel => BondBuiltIsRecord(conv, owner, kw);
    case EquityModel =>
  }

  /** Whatever multiplier is given, the stored one is truthy (the generic
      security has no multiplier). */
  lemma BuiltMultiplier(conv: Converter, kind: ModelKind, owner: Value, kw: Kwargs, nodes: Nodes)
    ensures var b := Built(conv, kind, owner, kw, nodes);
      b.record.Ok? && !b.record.value.Generic? ==> Truthy(b.record.value.multiplier)
  {
    var b := Built(conv, kind, owner, kw, nodes);
    if b.record.Ok? {
      match kind
      case SecurityModel =>
      case EtfModel => MultiplierNeverFalsy(Arg(kw, "multiplier", PyInt(1)), b.record.value.multiplier);
      case FundModel => MultiplierNeverFalsy(Arg(kw, "multiplier", PyInt(1)), b.record.value.multiplier);
      case EquityModel => MultiplierNeverFalsy(Arg(kw, "multiplier", PyInt(1)), b.record.value.multiplier);
      case BondModel =>
        BondBuiltIsRecord(conv, owner, kw);
        MultiplierNeverFalsy(Arg(kw, "multiplier", PyFloat(0.01)), b.record.value.multiplier);
    }
  }

  /** The Security builder's parameters are none of the subtype builders'
      own, so they pass through `**kwargs` unchanged. */
  lemma PassThrough(conv: Converter, owner: Value, kw: Kwargs, names: set<string>, sec: Security)
    requires "ISIN" !in names && "CUSIP" !in names && "SEDOL" !in names && "exchange" !in names
    ensures BaseFields(conv, owner, Without(kw, names), sec) <==> BaseFields(conv, owner, kw, sec)
  {
  }

  /** The Security builder's named parameters. */
  const SecurityParams: set<string> := {"ISIN", "CUSIP", "SEDOL", "exchange"}

  /** No builder binds ISIN, CUSIP, SEDOL or exchange before the Security
      builder does. */
  lemma BaseNamesFree(kind: ModelKind)
    ensures "ISIN" !in ParamsOf(kind) && "CUSIP" !in ParamsOf(kind)
    ensures "SEDOL" !in ParamsOf(kind) && "exchange" !in ParamsOf(kind)
  {
  }

  /** Every record, whatever its kind, carries the identity's code and the
      ISIN, CUSIP, SEDOL and exchange its caller supplied. */
  lemma SharedFields(conv: Converter, kind: ModelKind, owner: Value, kw: Kwargs, nodes: Nodes)
    ensures var b := Built(conv, kind, owner, kw, nodes);
      b.record.Ok? ==> BaseFields(conv, owner, kw, b.record.value.base)
  {
    var b := Built(conv, kind, owner, kw, nodes);
    if b.record.Ok? {
      BuiltBase(conv, kind, owner, kw, nodes);
      BaseNamesFree(kind);
      PassThrough(conv, owner, kw, ParamsOf(kind), b.record.value.base);
    }
  }

  /** Every keyword name some builder binds. */
  const BoundNames: set<string> := SecurityParams + EtfParams + EquityParams + FundParams + BondParams

  /** The Security builder reads only its four named parameters. */
  lemma SecurityIgnores(conv: Converter, owner: Value, kw: Kwargs, x: string, v: Value, w: Value)
    requires x !in SecurityParams
    ensures SecurityRecord(conv, owner, kw[x := v]) == SecurityRecord(conv, owner, kw[x := w])
  {
    assert x != "ISIN" && x != "CUSIP" && x != "SEDOL" && x != "exchange";
  }

  /** Binding parameters other than `x` commutes with setting `x`. */
  lemma WithoutSet(kw: Kwargs, names: set<string>, x: string, v: Value)
    requires x !in names
    ensures Without(kw[x := v], names) == Without(kw, names)[x := v]
  {
  }

  /** The base record of a builder binding `names` ignores an unbound `x`. */
  lemma BaseIgnores(conv: Converter, owner: Value, kw: Kwargs, names: set<string>, x: string, v: Value, w: Value)
    requires x !in SecurityParams && x !in names
    ensures SecurityRecord(conv, owner, Without(kw[x := v], names)) ==
            SecurityRecord(conv, owner, Without(kw[x := w], names))
  {
    WithoutSet(kw, names, x, v);
    WithoutSet(kw, names, x, w);
    SecurityIgnores(conv, owner, Without(kw, names), x, v, w);
  }

  lemma EtfIgnores(conv: Converter, owner: Value, kw: Kwargs, x: string, v: Value, w: Value)
    requires x !in SecurityParams && x !in EtfParams
    ensures EtfRecord(conv, owner, kw[x := v]) == EtfRecord(conv, owner, kw[x := w])
  {
    BaseIgnores(conv, owner, kw, EtfParams, x, v, w);
    assert x != "curncy" && x != "multiplier" && x != "settlement_delay";
  }

  lemma FundIgnores(conv: Converter, owner: Value, kw: Kwargs, x: string, v: Value, w: Value)
    requires x !in SecurityParams && x !in FundParams
    ensures FundRecord(conv, owner, kw[x := v]) == FundRecord(conv, owner, kw[x := w])
  {
    BaseIgnores(conv, owner, kw, FundParams, x, v, w);
    assert x != "curncy" && x != "multiplier" && x != "settlement_delay" && x != "security_type";
  }

  lemma EquityRecordIgnores(conv: Converter, owner: Value, ic: Value, kw: Kwargs, x: string, v: Value, w: Value)
    requires x !in SecurityParams && x !in EquityParams
    ensures EquityRecord(conv, owner, ic, kw[x := v]) == EquityRecord(conv, owner, ic, kw[x := w])
  {
    BaseIgnores(conv, owner, kw, EquityParams, x, v, w);
    assert x != "curncy" && x != "multiplier" && x != "settlement_delay" && x != "security_type";
  }

  lemma EquityIgnores(conv: Converter, owner: Value, kw: Kwargs, nodes: Nodes, x: string, v: Value, w: Value)
    requires x !in SecurityParams && x !in EquityParams
    ensures EquityBuilt(conv, owner, kw[x := v], nodes) == EquityBuilt(conv, owner, kw[x := w], nodes)
  {
    var k1, k2 := kw[x := v], kw[x := w];
    assert x != "industry_code" && x != "sector" && x != "sectorid" && x != "group" && x != "groupid";
    assert Arg(k1, "industry_code", PyNone) == Arg(k2, "industry_code", PyNone);
    var l1 := Link(nodes, Arg(k1, "sector", PyNone), Arg(k1, "sectorid", PyNone),
                   Arg(k1, "group", PyNone), Arg(k1, "groupid", PyNone));
    var l2 := Link(nodes, Arg(k2, "sector", PyNone), Arg(k2, "sectorid", PyNone),
                   Arg(k2, "group", PyNone), Arg(k2, "groupid", PyNone));
    assert l1 == l2;
    EquityRecordIgnores(conv, owner, Arg(k1, "industry_code", PyNone), kw, x, v, w);
    EquityRecordIgnores(conv, owner, PyNone, kw, x, v, w);
    if l1.result.Ok? && l1.result.value.Some? {
      EquityRecordIgnores(conv, owner, PyObj(l1.result.value.value), kw, x, v, w);
    }
  }

  /** A key holding no `__` never reaches an attribute bag. */
  lemma BagIgnoresPlainKey(kw: Kwargs, prefix: string, x: string, v: Value, w: Value)
    requires |Split(x)| == 1
    ensures Bag(kw[x := v], prefix) == Bag(kw[x := w], prefix)
  {
    var k1, k2 := kw[x := v], kw[x := w];
    var b1, b2 := Bag(k1, prefix), Bag(k2, prefix);
    assert !IsPart(x, prefix);
    BagMeaning(k1, prefix);
    BagMeaning(k2, prefix);
    forall s | s in b1 ensures s in b2 && b2[s] == b1[s] {
      var k := prefix + "__" + s;
      assert k != x;
    }
    forall s | s in b2 ensures s in b1 {
      var k := prefix + "__" + s;
      assert k != x;
    }
  }

  lemma BondTermsIgnore(conv: Converter, kw: Kwargs, x: string, v: Value, w: Value)
    requires x !in BondParams
    ensures BondTermsOf(conv, kw[x := v]) == BondTermsOf(conv, kw[x := w])
  {
    assert x != "collateral_type" && x != "announce_date" && x != "first_settle_date";
    assert x != "first_coupon_date" && x != "accrual_date" && x != "maturity_date";
  }

  lemma BondArgsIgnore(kw: Kwargs, x: string, v: Value, w: Value)
    requires x !in BondParams
    ensures var k1, k2 := kw[x := v], kw[x := w];
      Arg(k1, "curncy", PyStr("")) == Arg(k2, "curncy", PyStr("")) &&
      Arg(k1, "country", PyStr("")) == Arg(k2, "country", PyStr("")) &&
      Arg(k1, "bondclass__code", PyNone) == Arg(k2, "bondclass__code", PyNone) &&
      Arg(k1, "multiplier", PyFloat(0.01)) == Arg(k2, "multiplier", PyFloat(0.01)) &&
      Arg(k1, "settlement_delay", PyInt(3)) == Arg(k2, "settlement_delay", PyInt(3))
  {
    assert x != "curncy" && x != "country" && x != "bondclass__code";
    assert x != "multiplier" && x != "settlement_delay";
  }

  lemma BondIgnores(conv: Converter, owner: Value, kw: Kwargs, x: string, v: Value, w: Value)
    requires x !in SecurityParams && x !in BondParams && |Split(x)| == 1
    ensures BondRecord(conv, owner, kw[x := v], ClassBag(kw[x := v])) ==
            BondRecord(conv, owner, kw[x := w], ClassBag(kw[x := w]))
  {
    BaseIgnores(conv, owner, kw, BondParams, x, v, w);
    BondTermsIgnore(conv, kw, x, v, w);
    BondArgsIgnore(kw, x, v, w);
    WithoutSet(kw, BondParams, x, v);
    WithoutSet(kw, BondParams, x, w);
    BagIgnoresPlainKey(Without(kw, BondParams), "bondclass", x, v, w);
  }

  /** A keyword no builder binds and that holds no `__` (it splits into one
      piece) falls through every
      builder's `**kwargs` without effect: its value changes nothing. */
  lemma UnboundKeyIgnored(conv: Converter, kind: ModelKind, owner: Value, kw: Kwargs,
                          nodes: Nodes, x: string, v: Value, w: Value)
    requires x !in BoundNames && |Split(x)| == 1
    ensures Built(conv, kind, owner, kw[x := v], nodes) == Built(conv, kind, owner, kw[x := w], nodes)
  {
    match kind
    case SecurityModel => SecurityIgnores(conv, owner, kw, x, v, w);
    case EtfModel => EtfIgnores(conv, owner, kw, x, v, w);
    case FundModel => FundIgnores(conv, owner, kw, x, v, w);
    case EquityModel => EquityIgnores(conv, owner, kw, nodes, x, v, w);
    case BondModel =>
      BondIgnores(conv, owner, kw, x, v, w);
      BondBuiltIsRecord(conv, owner, kw[x := v]);
      BondBuiltIsRecord(conv, owner, kw[x := w]);
  }

  /** `commit` is one such keyword: whatever its value, a builder builds the
      same record and links the same industry nodes. */
  lemma CommitIgnored(conv: Converter, kind: ModelKind, owner: Value, kw: Kwargs, nodes: Nodes, v: Value, w: Value)
    ensures Built(conv, kind, owner, kw["commit" := v], nodes) == Built(conv, kind, owner, kw["commit" := w], nodes)
  {
    assert "commit" !in BoundNames;
    assert NoSep("commit");
    SingleIffNoSep("commit");
    UnboundKeyIgnored(conv, kind, owner, kw, nodes, "commit", v, w);
  }
}
