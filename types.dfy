/** Type-name resolution: `ct_from_type` and `ctmodel` of the data-id manager.
    A content type is a row naming a model within an app label; the content
    type table is a sequence of rows. */
module ContentTypes {
  import opened Python

  /** The instrument models a content type can stand for: the generic
      security and its four specialisations. */
  datatype ModelKind = SecurityModel | EtfModel | EquityModel | FundModel | BondModel

  /** A content-type row. `model` is what `model_class()` returns: `None` when
      the row's model class is no longer installed. */
  datatype ContentType = ContentType(name: string, appLabel: string, model: Option<ModelKind>)

  /** The row matches the lookup `get(name = t, app_label = app)`. */
  predicate Matches(ct: ContentType, t: Value, app: string) {
    t == PyStr(ct.name) && ct.appLabel == app
  }

  /** Exactly one row matches (what `objects.get` needs to succeed). */
  ghost predicate UniqueMatch(cts: seq<ContentType>, t: Value, app: string) {
    exists i :: 0 <= i < |cts| && Matches(cts[i], t, app) &&
      forall j :: 0 <= j < |cts| && Matches(cts[j], t, app) ==> j == i
  }

  predicate AnyMatch(cts: seq<ContentType>, t: Value, app: string) {
    exists i :: 0 <= i < |cts| && Matches(cts[i], t, app)
  }

  /** `ct_from_type`: the single matching row, or `None` when no row or more
      than one row matches (DoesNotExist / MultipleObjectsReturned). */
  function CtFromType(cts: seq<ContentType>, app: string, t: Value): (r: Option<ContentType>)
    ensures r.Some? <==> UniqueMatch(cts, t, app)
    ensures r.Some? ==> r.value in cts && Matches(r.value, t, app)
    ensures r.Some? ==> forall c :: c in cts && Matches(c, t, app) ==> c == r.value
  {
    if cts == [] then None
    else if Matches(cts[0], t, app) then
      if AnyMatch(cts[1..], t, app) then
        assert !UniqueMatch(cts, t, app) by {
          var i :| 1 <= i + 1 < |cts| && Matches(cts[1..][i], t, app);
          assert Matches(cts[i + 1], t, app);
        }
        None
      else
        assert forall j :: 0 <= j < |cts| && Matches(cts[j], t, app) ==> j == 0 by {
          forall j | 0 < j < |cts| ensures !Matches(cts[j], t, app) {
            assert cts[j] == cts[1..][j - 1];
          }
        }
        Some(cts[0])
    else
      var r := CtFromType(cts[1..], app, t);
      assert forall j :: 0 < j < |cts| ==> cts[j] == cts[1..][j - 1];
      assert UniqueMatch(cts[1..], t, app) ==> UniqueMatch(cts, t, app) by {
        if UniqueMatch(cts[1..], t, app) {
          var i :| 0 <= i < |cts[1..]| && Matches(cts[1..][i], t, app) &&
            forall j :: 0 <= j < |cts[1..]| && Matches(cts[1..][j], t, app) ==> j == i;
          assert Matches(cts[i + 1], t, app);
          forall j | 0 <= j < |cts| && Matches(cts[j], t, app) ensures j == i + 1 {
            assert j != 0;
            assert Matches(cts[1..][j - 1], t, app);
          }
        }
      }
      assert UniqueMatch(cts, t, app) ==> UniqueMatch(cts[1..], t, app) by {
        if UniqueMatch(cts, t, app) {
          var i :| 0 <= i < |cts| && Matches(cts[i], t, app) &&
            forall j :: 0 <= j < |cts| && Matches(cts[j], t, app) ==> j == i;
          assert i != 0;
          assert Matches(cts[1..][i - 1], t, app);
          forall j | 0 <= j < |cts[1..]| && Matches(cts[1..][j], t, app) ensures j == i - 1 {
            assert Matches(cts[j + 1], t, app);
          }
        }
      }
      r
  }

  /** The pair `ctmodel` returns: the content type and its model class. */
  datatype Resolved = Resolved(ct: Option<ContentType>, model: Option<ModelKind>)

  /** `ctmodel(type)`: a falsy type resolves to `(None, None)` without any
      lookup; a truthy type resolves to its row and model class, or raises
      `ValueError('Data type … not available')`. */
  function CtModel(cts: seq<ContentType>, app: string, t: Value): (r: Result<Resolved>)
    ensures !Truthy(t) ==> r == Ok(Resolved(None, None))
    ensures Truthy(t) ==> (r.Err? <==> !UniqueMatch(cts, t, app))
    ensures r.Err? ==> r.error.ValueError?
    ensures Truthy(t) && r.Ok? ==>
      r.value.ct.Some? && r.value.ct.value in cts && Matches(r.value.ct.value, t, app) &&
      r.value.model == r.value.ct.value.model
  {
    if Truthy(t) then
      match CtFromType(cts, app, t)
      case None => Err(ValueError("Data type not available"))
      case Some(ct) => Ok(Resolved(Some(ct), ct.model))
    else
      Ok(Resolved(None, None))
  }

  /** A type name that no row carries under the app label is an error for
      `ctmodel`, and so is one that two rows carry. */
  lemma UnknownTypeRaises(cts: seq<ContentType>, app: string, name: string)
    requires name != ""
    requires forall c :: c in cts ==> c.name != name || c.appLabel != app
    ensures CtModel(cts, app, PyStr(name)).Err?
  {
  }

  lemma AmbiguousTypeRaises(cts: seq<ContentType>, app: string, name: string, i: int, j: int)
    requires name != ""
    requires 0 <= i < j < |cts|
    requires Matches(cts[i], PyStr(name), app) && Matches(cts[j], PyStr(name), app)
    ensures CtModel(cts, app, PyStr(name)).Err?
  {
  }
}
