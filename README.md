# Instrument reference-data managers, modelled in Dafny

This project models the managers of jflow's instrument data registry
(`src/jflow/db/instdata/managers.py`, package `pombredanne/flow`):

- the data-id manager, which resolves a type name to a content type and
  an instrument model (`ctmodel`, `for_type`), and creates or updates
  identities (`get_or_create`, `create`, `modify`);
- the instrument builders (`SecurityManager`, `EtfManager`,
  `EquityManager`, `FundManager`, `BondManager`), which turn keyword
  arguments into instrument records;
- the industry-code manager, which links a group node under a sector
  node.

Django's storage becomes one store object, `Managers.Registry`. It holds
three maps: identities by code, instruments by primary key and
industry-code nodes by id. The content-type table is a sequence of rows.
The conversion service `convert(kind, value, **context)` is a function
parameter of the store (`Conversion.Converter`). Its bodies are not part
of this model, so every property holds for any converter.

Each method of the store is proved equal to an outcome function of the
tables before the call (`BuildOutcome`, `CreateOutcome`, `ReplaceOutcome`,
`ModifyOutcome`, `GetOrCreateOutcome`): the result it returns and the
tables it leaves. The lemmas beside them state when each call succeeds
and what each table then holds.

Python values are modelled as `Python.Value`, with Python's truthiness
(`Truthy`) and `a or b` (`Or`). Keyword arguments are a
`map<string, Value>`. A named parameter is read with `Arg`, and `**kwargs`
is what `Without` leaves. Raised exceptions are the `Err` branch of
`Python.Result`.

The modules follow the source:

- `Python`: values, keyword arguments, exceptions.
- `KeySplit`: `str.split('__')`.
- `IntParse`: `int()` of a value.
- `Conversion`: the conversion service.
- `ContentTypes`: `ct_from_type` and `ctmodel`.
- `Industry`: the specification of `IndustryCodeManager.create`.
- `Builders`: the records each builder makes, and the Bond builder's loop.
- `Managers`: the store and its methods.

## Quirks modelled as written

- `modify` takes `object_id` and `curncy` from the instrument it has just
  deleted, not from the new one (lines 88-94). Django clears the primary
  key of a deleted instance, so `object_id` becomes None and the identity
  refers to no instrument; `curncy` is the deleted instrument's. When the
  identity had no instrument, `inst.id` raises `AttributeError` after the
  builder has run; every builder but the Security one has by then saved
  the new instrument (`Managers.Registry.ModifyTables`).
- The builders never look at `commit`. It reaches them inside `**kwargs`
  (line 71), and the Security builder drops it (line 105). Every builder
  but the Security one saves its record (`Builders.CommitIgnored`,
  `Managers.BuildersIgnoreCommit`). So `create(..., commit=False)` with any
  type but the generic security one saves an instrument but not the
  identity.
- A type naming the generic security model runs the Security builder
  itself (lines 105-109), which returns a record without saving it; the
  identity's `_new_content` is then that unsaved record
  (`Managers.Registry.BuildStores`).
- `create` and `modify` bind `type`, `country` and `default_vendor` and do
  not pass them on (line 71). So `create(type='bond', country='US')` gives
  the Bond builder no `country`, and the bond class is resolved with the
  country `convert('country', '')` (line 182), whatever country the
  identity gets (`Managers.IdentityKeysWithheld`).
- `settlement_delay=None` is stored as None. Only an absent keyword gets
  the default (2, or 3 for bonds).
- The Bond builder's multiplier default 0.01 goes through `multiplier or 1`.
  An explicit falsy multiplier, such as 0, becomes 1.
- A `bondclass__curncy` or `bondclass__country` keyword collides with the
  `curncy=` and `country=` arguments of the `bondclass` conversion. Python
  raises `TypeError`, and `Builders.ClassContext` models that.

## Model

| member | source | states |
|---|---|---|
| `Python.Or` | src/jflow/db/instdata/managers.py:68 | `a or b` is `a` when `a` is truthy and `b` otherwise; the result is truthy whenever `b` is |
| `KeySplit.FindSep` | src/jflow/db/instdata/managers.py:186 | the leftmost `__` of a key: a separator is at the position found, none is earlier, and none is found exactly when the key has none |
| `KeySplit.Split` | src/jflow/db/instdata/managers.py:186 | `k.split('__')` always has at least one piece |
| `KeySplit.JoinSplit` | src/jflow/db/instdata/managers.py:186 | joining the pieces with `__` gives back the key |
| `KeySplit.SingleIffNoSep` | src/jflow/db/instdata/managers.py:186-187 | a key splits into one piece exactly when it holds no `__` |
| `KeySplit.TwoPieces` | src/jflow/db/instdata/managers.py:186-187 | a key that splits into two pieces is `ks[0] + '__' + ks[1]` |
| `KeySplit.PrefixedKey` | src/jflow/db/instdata/managers.py:186-191 | `prefix__name` splits into `[prefix, name]` exactly when `name` holds no `__` |
| `IntParse.ParseDecimal` | src/jflow/db/instdata/managers.py:219-220 | a string parses exactly when it is an optional sign followed by at least one digit; a leading `-` gives a value at most 0, anything else one at least 0 |
| `IntParse.Truncate` | src/jflow/db/instdata/managers.py:219-220 | `int()` of a float truncates toward zero |
| `IntParse.ParseInt` | src/jflow/db/instdata/managers.py:219-222 | `int(v)` of an integer is that integer; of None or a model instance it raises |
| `IntParse.Decimal` | src/jflow/db/instdata/managers.py:219-220 | the decimal spelling of a natural number is a non-empty digit string |
| `IntParse.DecimalValue` | src/jflow/db/instdata/managers.py:219-220 | reading the decimal spelling of `n` gives `n` |
| `IntParse.DecimalRoundTrip` | src/jflow/db/instdata/managers.py:219-220 | `int(str(n))`, `int('+' + str(n))` and `int('-' + str(n))` give `n`, `n` and `-n` |
| `IntParse.NonNumericFails` | src/jflow/db/instdata/managers.py:221-222 | `'abc'`, `''` and `'-'` do not parse |
| `ContentTypes.CtFromType` | src/jflow/db/instdata/managers.py:12-17 | a row is found exactly when one row has the name under the app label; it is that row, and every matching row equals it |
| `ContentTypes.CtModel` | src/jflow/db/instdata/managers.py:19-27 | a falsy type gives `(None, None)`; a truthy one raises `ValueError` exactly when no single row matches, and otherwise gives the row and its model class |
| `ContentTypes.UnknownTypeRaises` | src/jflow/db/instdata/managers.py:22-25 | a name no row carries under the app label raises |
| `ContentTypes.AmbiguousTypeRaises` | src/jflow/db/instdata/managers.py:22-25 | a name two rows carry raises |
| `Industry.GetOrCreateNode` | src/jflow/db/instdata/managers.py:223-224 | `get_or_create(id, code)` finds a node with both, inserts a parentless one for a free id, and raises `IntegrityError` for an id taken by another code |
| `Industry.Link` | src/jflow/db/instdata/managers.py:216-229 | None with the table unchanged exactly when an input is falsy or an id does not parse; `IntegrityError` exactly when the sector id is held by another code, or the group id is held by another code once the sector node is in; otherwise the group id, with the group node's parent set to the sector node, a new sector node without parent and an existing one unchanged; when the group's insert raises, the sector node inserted before it stays; only the two ids are added or changed |
| `Industry.LinkIdempotent` | src/jflow/db/instdata/managers.py:223-227 | a repeated identical call returns the same result and leaves the same table |
| `Industry.RepeatedLinkKeepsParent` | src/jflow/db/instdata/managers.py:223-227 | after a repeated call the group node still has the sector as parent |
| `Industry.TechSoftware` | src/jflow/db/instdata/managers.py:216-227 | `create('Tech', '1', 'Software', '11')` on an empty table gives node 11 under node 1 |
| `Industry.NonNumericIdIsSoft` | src/jflow/db/instdata/managers.py:218-222 | a non-numeric sector id gives None, not an error |
| `Builders.MultiplierNeverFalsy` | src/jflow/db/instdata/managers.py:117 | `multiplier or 1` is never falsy |
| `Builders.SecurityRecord` | src/jflow/db/instdata/managers.py:105-109 | the base record has the identity's code, ISIN, CUSIP and SEDOL as given (default `''`) and the converted exchange; it fails exactly when the exchange conversion does |
| `Builders.EtfRecord` | src/jflow/db/instdata/managers.py:113-120 | base fields from the unbound keywords, converted `curncy`, `multiplier or 1` (default 1), `settlement_delay` as given (default 2); fails exactly when a conversion does |
| `Builders.EquityRecord` | src/jflow/db/instdata/managers.py:134-141 | the Equity fields: base, the given industry code, converted currency and security type (default 1), `multiplier or 1`, delay default 2; fails exactly when a conversion does |
| `Builders.FundRecord` | src/jflow/db/instdata/managers.py:147-156 | the Fund fields as for Etf, plus the converted security type |
| `Builders.BondTermsOf` | src/jflow/db/instdata/managers.py:174-179 | succeeds exactly when the five dates convert as `bonddate` and the collateral type as `collateral`, and then holds those conversions |
| `Builders.ClassContext` | src/jflow/db/instdata/managers.py:193-197 | the `bondclass` conversion context holds the bag plus `curncy` and `country`; a bag entry with either name raises `TypeError` |
| `Builders.BondRecord` | src/jflow/db/instdata/managers.py:160-202 | succeeds exactly when the base, the terms, the currency and country and the bond class convert and the bag names neither `curncy` nor `country`; then base, terms, the bond class converted with the converted currency and country and the bag as context, `multiplier or 1` (default 0.01), delay default 3 |
| `Builders.BagMeaning` | src/jflow/db/instdata/managers.py:183-191 | the bag holds `name` exactly for the keywords `prefix__name` that split into two pieces, with their values |
| `Builders.ClassKeyCollected` | src/jflow/db/instdata/managers.py:183-187 | `bondclass__name` is collected exactly when `name` holds no `__` |
| `Builders.BagIgnoresPlainKey` | src/jflow/db/instdata/managers.py:185-191 | a key without `__` never changes a bag |
| `Builders.CollectBags` | src/jflow/db/instdata/managers.py:181-191 | the loop over `kwargs` fills `bck` with the `bondclass` bag and `isu` with the `issuer` bag |
| `Builders.ClassBagHasNoCode` | src/jflow/db/instdata/managers.py:163 | `bondclass__code` is a named parameter, so the class bag never holds `code` |
| `Builders.EquityBuilt` | src/jflow/db/instdata/managers.py:128-134 | without a truthy `industry_code` the Equity builder links sector and group first; an integrity error propagates, and a soft failure leaves the industry code None |
| `Builders.Built` | src/jflow/db/instdata/managers.py:71 | only the Equity builder without an industry code touches the industry table |
| `Builders.BuiltKind` | src/jflow/db/instdata/managers.py:71 | each builder makes a record of its own model, the Security builder a generic security |
| `Builders.BuiltBase` | src/jflow/db/instdata/managers.py:115 | each builder's base record comes from the keywords it does not bind |
| `Builders.BuiltMultiplier` | src/jflow/db/instdata/managers.py:117 | every stored multiplier is truthy, the Bond's included; the generic security has none |
| `Builders.PassThrough` | src/jflow/db/instdata/managers.py:105 | binding names other than ISIN, CUSIP, SEDOL and exchange leaves the base fields as they were |
| `Builders.BaseNamesFree` | src/jflow/db/instdata/managers.py:113-114 | no builder binds ISIN, CUSIP, SEDOL or exchange itself |
| `Builders.SharedFields` | src/jflow/db/instdata/managers.py:105-109 | every record, whatever its kind, carries the identity's code and the supplied ISIN, CUSIP, SEDOL and converted exchange |
| `Builders.UnboundKeyIgnored` | src/jflow/db/instdata/managers.py:105 | the value of a keyword no builder binds, holding no `__`, changes neither record nor industry table |
| `Builders.CommitIgnored` | src/jflow/db/instdata/managers.py:71 | whatever `commit` is, every builder builds the same record |
| `Managers.BuilderKw` | src/jflow/db/instdata/managers.py:71 | the builder receives exactly `commit` and the keywords `create` does not bind, so never `type`, `country` or `default_vendor` |
| `Managers.BuildersIgnoreCommit` | src/jflow/db/instdata/managers.py:71 | the instrument `create` or `modify` builds does not depend on `commit` |
| `Managers.IdentityKeysWithheld` | src/jflow/db/instdata/managers.py:62-71 | the builder's result does not depend on the `type`, `country` or `default_vendor` given to `create`; the Bond builder sees no `country` and falls back to `''` |
| `Managers.Registry.ForType` | src/jflow/db/instdata/managers.py:29-34 | the codes of identities with the named content type; none when the name resolves to no single row |
| `Managers.Registry.ForTypeNeverRaises` | src/jflow/db/instdata/managers.py:24-33 | where `ctmodel` raises, `for_type` returns nothing |
| `Managers.InstrumentOf` | src/jflow/db/instdata/managers.py:88-89 | `id.instrument` is the stored instrument the identity's content type and object id name, exactly when both are set and the key is stored |
| `Managers.Registry.Save` | src/jflow/db/instdata/managers.py:119 | a new record is stored under the next key, which no stored record holds; nothing else changes |
| `Managers.Registry.IndustryCreate` | src/jflow/db/instdata/managers.py:216-229 | the returned id and the new node table are those of `Industry.Link` |
| `Managers.Registry.BuildSecurity` | src/jflow/db/instdata/managers.py:105-109 | the outcome of the Security builder: the record is returned unsaved and no table changes |
| `Managers.Registry.BuildEtf` | src/jflow/db/instdata/managers.py:113-120 | the outcome of the Etf builder on the old tables: its record stored under the next key, or its error with nothing stored |
| `Managers.Registry.BuildFund` | src/jflow/db/instdata/managers.py:147-156 | the outcome of the Fund builder on the old tables |
| `Managers.Registry.BuildEquity` | src/jflow/db/instdata/managers.py:124-141 | the outcome of the Equity builder: the links of `Builders.EquityBuilt` stay, then the record is stored or its error raised |
| `Managers.Registry.BuildBond` | src/jflow/db/instdata/managers.py:160-202 | the outcome of the Bond builder, its class bag collected by the loop |
| `Managers.Registry.Build` | src/jflow/db/instdata/managers.py:71 | `model.objects.create` for the resolved model has the outcome of that model's builder |
| `Managers.Registry.BuildStores` | src/jflow/db/instdata/managers.py:71 | a builder's result is its record's; only its links change the industry table; a failed record stores nothing; a built one is stored under a fresh key, except the generic security, returned unsaved |
| `Managers.Registry.Create` | src/jflow/db/instdata/managers.py:59-75 | the result and new tables are those of `create` on the old tables (`CreateOutcome`) |
| `Managers.Registry.CreateSucceeds` | src/jflow/db/instdata/managers.py:59-75 | `create` succeeds exactly when the type resolves, the vendor and country convert, and a resolved content type has a model class whose builder's record builds |
| `Managers.Registry.CreateTables` | src/jflow/db/instdata/managers.py:67-74 | an unavailable type raises `ValueError` with nothing changed; before the builder runs no table changes; a class-less type raises `AttributeError`; the builder's links stay and its record is stored whether or not `commit` is set, and on its error nothing is stored; the identity's row (without `_new_content`) is stored exactly when the call succeeds with `commit` truthy |
| `Managers.Registry.CreateIdentity` | src/jflow/db/instdata/managers.py:67-72 | the returned identity has the converted `default_vendor or` site default, the converted country, and its old code, reference and currency; with no type its old content fields |
| `Managers.Registry.ReplaceContent` | src/jflow/db/instdata/managers.py:88-94 | the result and new tables are those of the content part of `modify` (`ReplaceOutcome`) |
| `Managers.Registry.Modify` | src/jflow/db/instdata/managers.py:77-97 | the result and new tables are those of `modify` on the old tables (`ModifyOutcome`) |
| `Managers.Registry.ModifySucceeds` | src/jflow/db/instdata/managers.py:77-97 | `modify` succeeds exactly when the type resolves, the supplied vendor and country convert, and a resolved content type has a model class whose record builds and the identity had an instrument |
| `Managers.Registry.ModifyTables` | src/jflow/db/instdata/managers.py:82-96 | an unavailable type raises `ValueError` with nothing changed; nothing changes unless the content part is reached; then the current instrument is deleted, the builder's links stay, and its record is stored, also when the identity had no instrument and `inst.id` raises `AttributeError`; on success the identity's object id is None and its currency the deleted instrument's; the identity's row (without `_new_content`) is stored exactly when the call succeeds with `commit` truthy |
| `Managers.Registry.ModifyIdentity` | src/jflow/db/instdata/managers.py:82-94 | vendor and country change, to their conversions, only when a truthy value is supplied; the code stays; with no type the reference, currency and content fields stay |
| `Managers.Registry.GetOrCreate` | src/jflow/db/instdata/managers.py:36-57 | the result and new tables are those of `get_or_create` on the old tables (`GetOrCreateOutcome`) |
| `Managers.Registry.GetOrCreateFacts` | src/jflow/db/instdata/managers.py:36-57 | a falsy code raises `ValueError` with nothing changed; otherwise the call is the `modify` of the stored identity or the `create` of a bare one inserted first, `created` says which, an identity row with the code and no `_new_content` exists afterwards (bare or as before unless saved), and no other code's identity changes |

## Left out

- Process bootstrap (`src/jflow/jfsite/run.py`) is not part of this model.
- The bodies of `convert` (`jflow.db.instdata.converters`) are not part of
  this model. Every result holds for any converter.
- `ContentTypes.ModelKind` names only the five instrument models. The app's
  content-type table also holds rows for its other models (the data id, the
  industry code, the decomposition), and a `type` naming one of those makes
  `create`/`modify` call that model's own manager with `(id, commit=...,
  **kwargs)`; `IndustryCodeManager.create`, for one, rejects those
  arguments with a `TypeError`. The model cannot express such a row, so
  `Managers.Registry.CreateSucceeds` and `Managers.Registry.ModifySucceeds`
  are stated for a content-type table whose model classes are instrument
  models.
- `DecompManager.for_object` is not modelled. It depends on queryset
  internals, and it reads `v.latest` without calling it.
- The instrument models (`jflow.db.instdata.models`) are not part of this
  model. `id.instrument` resolves the identity's reference in the
  instrument map, and `inst.ccy()` is a function parameter of the store
  (`ccyOf`).
- `_new_content` is an in-memory attribute. Whether `DataId.save()`
  (`jflow.db.instdata.models`, not part of this model) turns it into
  `object_id` is not known here; the model leaves `object_id` as it was,
  and the stored row does not carry the attribute (`Managers.Row`), so an
  identity loaded again by `get_or_create` has none.
  As a consequence, an identity whose instrument `create` or `modify` made
  has no `id.instrument` in the model, and a later `modify` with a type
  raises `AttributeError` after its builder has run (and, for every
  builder but the Security one, after storing the new instrument).
- New primary keys come from one counter shared by all instrument models
  (`nextKey`), and `id.instrument` looks `object_id` up in that one table.
  Django keeps one key sequence per model table and resolves `object_id`
  in the table of the identity's content type; with one counter, keys of
  different models never collide.
- A content-type lookup matches only a string `type` against the row's
  name (`ContentTypes.Matches`); a non-string truthy `type` never matches,
  and so raises `ValueError`.
- Tagging (the `tags` keyword and the tagging base manager) is not
  modelled. The keyword flows into `**kwargs` like any other.
- Python raises `TypeError` when a keyword repeats an explicit argument
  name, such as `id` or `self`. The model does not reject such keywords.
- When a call raises part-way, the fields already assigned on the
  caller's in-memory `id` object stay assigned. The model returns only the
  error, so that partial mutation is not modelled.
- `Managers.Registry.Create` and `Managers.Registry.Modify` are called
  with identity values, not shared objects, so aliasing of one identity
  object between callers is not modelled.
- `IntParse.ParseInt` does not accept the surrounding whitespace or the
  digit-group underscores that Python's `int()` accepts.
- Floats are modelled as exact reals, so there is no rounding.
- Concurrency and database transactions are not modelled. The IntegrityError
  of the industry get-or-create is modelled as an error outcome.
