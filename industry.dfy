/** The industry classification: nodes keyed by a numeric id, each with a code
    and an optional parent. `Link` is the specification of
    `IndustryCodeManager.create` as a function of the node table. */
module Industry {
  import opened Python
  import opened IntParse

  datatype Node = Node(code: Value, parent: Option<int>)

  type Nodes = map<int, Node>

  /** The id `i` is held by a node whose code is not `c`. */
  predicate Taken(nodes: Nodes, i: int, c: Value) {
    i in nodes && nodes[i].code != c
  }

  /** Django's `get_or_create(id = i, code = c)`: the row is found when both
      fields match; otherwise a new row without parent is inserted, which fails
      with an integrity error when the id is already taken by another code. */
  function GetOrCreateNode(nodes: Nodes, i: int, c: Value): (r: Result<Nodes>)
    ensures r.Ok? <==> !Taken(nodes, i, c)
    ensures r.Ok? ==> i in r.value && r.value[i].code == c
    ensures r.Ok? && i in nodes ==> r.value == nodes
    ensures r.Ok? && i !in nodes ==> r.value == nodes[i := Node(c, None)]
    ensures r.Err? ==> r.error.IntegrityError?
  {
    if i in nodes then
      if nodes[i].code == c then Ok(nodes) else Err(IntegrityError("duplicate industry code id"))
    else
      Ok(nodes[i := Node(c, None)])
  }

  /** What a call returns, and the node table after it. */
  datatype Linked = Linked(result: Result<Option<int>>, nodes: Nodes)

  /** The four inputs are all present. */
  predicate AllGiven(sector: Value, sectorid: Value, group: Value, groupid: Value) {
    Truthy(sector) && Truthy(sectorid) && Truthy(group) && Truthy(groupid)
  }

  /** `create(sector, sectorid, group, groupid)`: the id of the group node, now
      a child of the sector node; `None` (and nothing changed) when an input is
      missing or an id does not parse. */
  function Link(nodes: Nodes, sector: Value, sectorid: Value, group: Value, groupid: Value): (r: Linked)
    ensures r.result == Ok(None) <==>
      !AllGiven(sector, sectorid, group, groupid) || ParseInt(sectorid).None? || ParseInt(groupid).None?
    ensures r.result == Ok(None) ==> r.nodes == nodes
    ensures r.result.Err? <==>
      AllGiven(sector, sectorid, group, groupid) && ParseInt(sectorid).Some? && ParseInt(groupid).Some? &&
      var sid, gid := ParseInt(sectorid).value, ParseInt(groupid).value;
      Taken(nodes, sid, sector) || Taken(nodes, gid, group) || (gid == sid && sid !in nodes && group != sector)
    ensures r.result.Err? ==> r.result.error.IntegrityError?
    ensures r.result.Ok? && r.result.value.Some? ==>
      ParseInt(sectorid).Some? && r.result.value == ParseInt(groupid) &&
      var sid, gid := ParseInt(sectorid).value, ParseInt(groupid).value;
      gid in r.nodes && r.nodes[gid] == Node(group, Some(sid)) &&
      sid in r.nodes && r.nodes[sid].code == sector
    ensures r.result.Ok? && r.result.value.Some? && ParseInt(sectorid).Some? ==>
      var sid, gid := ParseInt(sectorid).value, r.result.value.value;
      sid != gid ==> r.nodes[sid] == if sid in nodes then nodes[sid] else Node(sector, None)
    ensures r.result.Err? && ParseInt(sectorid).Some? ==>
      var sid := ParseInt(sectorid).value;
      r.nodes == if Taken(nodes, sid, sector) then nodes else GetOrCreateNode(nodes, sid, sector).value
    ensures forall k :: k in nodes ==> k in r.nodes
    ensures forall k :: k in r.nodes && k !in nodes ==>
      k == ParseInt(sectorid).value || k == ParseInt(groupid).value
    ensures forall k :: k in nodes && r.nodes[k] != nodes[k] ==> Some(k) == ParseInt(groupid)
  {
    if !AllGiven(sector, sectorid, group, groupid) then Linked(Ok(None), nodes)
    else
      match (ParseInt(sectorid), ParseInt(groupid))
      case (Some(sid), Some(gid)) =>
        (match GetOrCreateNode(nodes, sid, sector)
         case Err(e) => Linked(Err(e), nodes)
         case Ok(n1) =>
           match GetOrCreateNode(n1, gid, group)
           case Err(e) => Linked(Err(e), n1)
           case Ok(n2) => Linked(Ok(Some(gid)), n2[gid := Node(group, Some(sid))]))
      case _ => Linked(Ok(None), nodes)
  }

  /** A repeated identical call creates nothing new: the second call returns
      what the first did and leaves the table as the first left it. */
  lemma {:induction false} LinkIdempotent(nodes: Nodes, sector: Value, sectorid: Value, group: Value, groupid: Value)
    ensures var first := Link(nodes, sector, sectorid, group, groupid);
      Link(first.nodes, sector, sectorid, group, groupid) == first
  {
    var first := Link(nodes, sector, sectorid, group, groupid);
    if AllGiven(sector, sectorid, group, groupid) && ParseInt(sectorid).Some? && ParseInt(groupid).Some? {
      var sid, gid := ParseInt(sectorid).value, ParseInt(groupid).value;
      var g1 := GetOrCreateNode(nodes, sid, sector);
      if g1.Ok? {
        var n1 := g1.value;
        var g2 := GetOrCreateNode(n1, gid, group);
        var m := first.nodes;
        if g2.Ok? {
          assert GetOrCreateNode(m, sid, sector) == Ok(m);
          assert GetOrCreateNode(m, gid, group) == Ok(m);
          assert m[gid := Node(group, Some(sid))] == m;
          assert Link(m, sector, sectorid, group, groupid) == Linked(Ok(Some(gid)), m);
        } else {
          assert m == n1;
          assert GetOrCreateNode(m, sid, sector) == Ok(m);
          assert Link(m, sector, sectorid, group, groupid) == Linked(Err(g2.error), m);
        }
      }
    }
  }

  /** A second call with the same ids and codes returns the same group node,
      with the parent set to the sector node both times. */
  lemma RepeatedLinkKeepsParent(nodes: Nodes, sector: Value, sectorid: Value, group: Value, groupid: Value)
    requires Link(nodes, sector, sectorid, group, groupid).result.Ok?
    requires Link(nodes, sector, sectorid, group, groupid).result.value.Some?
    ensures var first := Link(nodes, sector, sectorid, group, groupid);
      var second := Link(first.nodes, sector, sectorid, group, groupid);
      var gid := first.result.value.value;
      second.result == first.result && gid in second.nodes &&
      second.nodes[gid] == Node(group, Some(ParseInt(sectorid).value))
  {
    LinkIdempotent(nodes, sector, sectorid, group, groupid);
  }

  /** Sector "Tech" with id "1" and group "Software" with id "11" on an empty
      table give the group node 11 whose parent is node 1. */
  lemma TechSoftware()
    ensures var r := Link(map[], PyStr("Tech"), PyStr("1"), PyStr("Software"), PyStr("11"));
      r.result == Ok(Some(11)) &&
      r.nodes == map[1 := Node(PyStr("Tech"), None), 11 := Node(PyStr("Software"), Some(1))]
  {
    assert ParseInt(PyStr("1")) == Some(1) by { DecimalRoundTrip(1); }
    assert ParseInt(PyStr("11")) == Some(11) by {
      assert Decimal(11) == "11";
      DecimalRoundTrip(11);
    }
  }

  /** A non-numeric sector id is a soft failure, not an error. */
  lemma NonNumericIdIsSoft(nodes: Nodes)
    ensures Link(nodes, PyStr("Tech"), PyStr("abc"), PyStr("Software"), PyStr("11")) == Linked(Ok(None), nodes)
  {
    NonNumericFails();
  }
}
