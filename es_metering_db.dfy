/** The database side of the enhanced metering labels: the label table,
    the not-found checks of its create, get and delete operations, and the
    sync data the server sends the metering agents: each admin-up router
    with its labels, projected to the four fields the driver reads. */
module EsMeteringDb {
  import opened Common
  import EsIptables

  /** The label dict the driver receives (`_label_dict`). */
  type Label = EsIptables.Label

  /** One row of `es_metering_labels`. */
  datatype EsLabelRow = EsLabelRow(id: string, tenantId: string, name: string, description: string, routerId: string,
                                   direction: string, internalIp: Option<string>, tcpPort: Option<int>)

  /** The columns of a router row that the sync data copies. */
  datatype RouterRow = RouterRow(id: string, name: string, tenantId: string, adminStateUp: bool, status: string,
                                 gwPortId: Option<string>)

  /** A router dict of the sync data, with its label list. */
  datatype SyncRouter = SyncRouter(id: string, name: string, tenantId: string, adminStateUp: bool, status: string,
                                   gwPortId: Option<string>, esLabels: seq<Label>)

  /** The errors of the table operations; `MissingAttribute` is the
      AttributeError of a call to a method the row does not have. */
  datatype DbError = RouterNotFound(routerId: string) | EsMeteringLabelNotFound(labelId: string)
                   | MissingAttribute(attribute: string)

  /** The attributes an update may change: only the name and the
      description are writable after creation. */
  datatype LabelUpdate = LabelUpdate(name: Option<string>, description: Option<string>)

  datatype Result<T> = Ok(value: T) | Err(error: DbError)

  // ---------------------------------------------------------------------
  // Projections and filters

  /** `_label_dict`. */
  function LabelDict(row: EsLabelRow): Label
  {
    EsIptables.Label(row.id, row.direction, row.internalIp, row.tcpPort)
  }

  /** The projection keeps exactly the id, the direction, the internal
      address and the port: rows agreeing on those four give the same dict,
      and rows differing in any of them give different dicts. */
  lemma LabelDictProjects(a: EsLabelRow, b: EsLabelRow)
    ensures LabelDict(a) == LabelDict(b)
            <==> a.id == b.id && a.direction == b.direction && a.internalIp == b.internalIp && a.tcpPort == b.tcpPort
  {
  }

  predicate UniqueIds(labels: seq<EsLabelRow>)
  {
    forall i, j | 0 <= i < j < |labels| :: labels[i].id != labels[j].id
  }

  /** The `es_metering_labels` relationship of a router: its labels in
      table order. */
  function RouterLabels(labels: seq<EsLabelRow>, routerId: string): seq<EsLabelRow>
    decreases |labels|
  {
    if |labels| == 0 then []
    else
      var last := labels[|labels| - 1];
      RouterLabels(labels[..|labels| - 1], routerId) + (if last.routerId == routerId then [last] else [])
  }

  /** `[_label_dict(l) for l in rows if label_id is None or l['id'] == label_id]`. */
  function Selected(rows: seq<EsLabelRow>, labelId: Option<string>): seq<Label>
    decreases |rows|
  {
    if |rows| == 0 then []
    else
      var last := rows[|rows| - 1];
      Selected(rows[..|rows| - 1], labelId)
      + (if labelId.None? || last.id == labelId.value then [LabelDict(last)] else [])
  }

  /** Without a label id every row is projected, in order; with one, only
      rows of that id are, and each of them is. */
  lemma {:induction false} SelectedSpec(rows: seq<EsLabelRow>, labelId: Option<string>)
    ensures labelId.None? ==> |Selected(rows, labelId)| == |rows|
                              && forall i | 0 <= i < |rows| :: Selected(rows, labelId)[i] == LabelDict(rows[i])
    ensures labelId.Some? ==> forall l | l in Selected(rows, labelId) :: l.id == labelId.value
    ensures labelId.Some? ==>
              forall r | r in rows && r.id == labelId.value :: LabelDict(r) in Selected(rows, labelId)
    decreases |rows|
  {
    if |rows| > 0 {
      var init := rows[..|rows| - 1];
      SelectedSpec(init, labelId);
      assert rows == init + [rows[|rows| - 1]];
    }
  }

  /** With unique ids, a label id selects at most one label of a router. */
  lemma {:induction false} SelectedAtMostOne(rows: seq<EsLabelRow>, labelId: string)
    requires UniqueIds(rows)
    ensures |Selected(rows, Some(labelId))| <= 1
    ensures |Selected(rows, Some(labelId))| == 1 ==> exists r | r in rows :: r.id == labelId
    decreases |rows|
  {
    if |rows| > 0 {
      var init := rows[..|rows| - 1];
      var last := rows[|rows| - 1];
      assert UniqueIds(init) by {
        forall i, j | 0 <= i < j < |init| ensures init[i].id != init[j].id {
          assert init[i] == rows[i] && init[j] == rows[j];
        }
      }
      SelectedAtMostOne(init, labelId);
      if last.id == labelId {
        assert forall i | 0 <= i < |init| :: init[i].id != labelId by {
          forall i | 0 <= i < |init| ensures init[i].id != labelId {
            assert init[i] == rows[i];
          }
        }
        SelectedNone(init, labelId);
      } else if |Selected(rows, Some(labelId))| == 1 {
        var r :| r in init && r.id == labelId;
        assert r in rows;
      }
    }
  }

  lemma {:induction false} SelectedNone(rows: seq<EsLabelRow>, labelId: string)
    requires forall i | 0 <= i < |rows| :: rows[i].id != labelId
    ensures Selected(rows, Some(labelId)) == []
    decreases |rows|
  {
    if |rows| > 0 {
      SelectedNone(rows[..|rows| - 1], labelId);
    }
  }

  /** A router's labels belong to it and are all of its labels. */
  lemma {:induction false} RouterLabelsSpec(labels: seq<EsLabelRow>, routerId: string)
    ensures forall l :: l in RouterLabels(labels, routerId) <==> l in labels && l.routerId == routerId
    decreases |labels|
  {
    if |labels| > 0 {
      var init := labels[..|labels| - 1];
      RouterLabelsSpec(init, routerId);
      assert labels == init + [labels[|labels| - 1]];
    }
  }

  // ---------------------------------------------------------------------
  // Sync data

  /** `if label_id:` — an empty id is no id. */
  predicate Given(labelId: Option<string>)
  {
    labelId.Some? && labelId.value != ""
  }

  /** The router ids `get_sync_data_metering` collects when it is given
      none: the routers of all labels, or of the label with the given id. */
  function LabelRouterIds(labels: seq<EsLabelRow>, labelId: Option<string>): set<string>
  {
    set l | l in labels && (!Given(labelId) || l.id == labelId.value) :: l.routerId
  }

  /** The dict of one router, if it exists and is admin-up. */
  function SyncEntry(routers: map<string, RouterRow>, labels: seq<EsLabelRow>, labelId: Option<string>,
                     routerId: string): Option<SyncRouter>
  {
    if routerId in routers && routers[routerId].adminStateUp then
      var r := routers[routerId];
      Some(SyncRouter(r.id, r.name, r.tenantId, r.adminStateUp, r.status, r.gwPortId,
                      Selected(RouterLabels(labels, routerId), labelId)))
    else None
  }

  /** The sync data for the router ids taken in `order`. */
  function SyncData(routers: map<string, RouterRow>, labels: seq<EsLabelRow>, labelId: Option<string>,
                    order: seq<string>): seq<SyncRouter>
    decreases |order|
  {
    if |order| == 0 then []
    else
      var e := SyncEntry(routers, labels, labelId, order[|order| - 1]);
      SyncData(routers, labels, labelId, order[..|order| - 1]) + (if e.Some? then [e.value] else [])
  }

  /** Routers are keyed by their own id. */
  ghost predicate RoutersKeyed(routers: map<string, RouterRow>)
  {
    forall k | k in routers :: routers[k].id == k
  }

  /** Only existing admin-up routers among the ids appear, each with its
      labels (only the given label's when an id is given); every such
      router appears, and missing routers are skipped. */
  lemma {:induction false} SyncDataSpec(routers: map<string, RouterRow>, labels: seq<EsLabelRow>,
                                        labelId: Option<string>, order: seq<string>)
    requires RoutersKeyed(routers)
    ensures |SyncData(routers, labels, labelId, order)| <= |order|
    ensures forall s | s in SyncData(routers, labels, labelId, order) ::
              s.id in order && s.id in routers && routers[s.id].adminStateUp && s.adminStateUp
              && s.esLabels == Selected(RouterLabels(labels, s.id), labelId)
    ensures forall k | k in order && k in routers && routers[k].adminStateUp ::
              exists s | s in SyncData(routers, labels, labelId, order) :: s.id == k
    decreases |order|
  {
    if |order| > 0 {
      var init := order[..|order| - 1];
      var k := order[|order| - 1];
      SyncDataSpec(routers, labels, labelId, init);
      assert order == init + [k];
      var d := SyncData(routers, labels, labelId, order);
      var d0 := SyncData(routers, labels, labelId, init);
      forall s | s in d0 ensures s in d { }
      if k in routers && routers[k].adminStateUp {
        assert SyncEntry(routers, labels, labelId, k).value in d;
      }
    }
  }

  /** Without router ids and with a label id, the routers collected are
      the one router of that label, or none when there is no such label. */
  lemma LabelRouterIdsOfOne(labels: seq<EsLabelRow>, labelId: string)
    requires UniqueIds(labels) && labelId != ""
    ensures forall l | l in labels && l.id == labelId :: LabelRouterIds(labels, Some(labelId)) == {l.routerId}
    ensures (forall l | l in labels :: l.id != labelId) ==> LabelRouterIds(labels, Some(labelId)) == {}
  {
    forall l | l in labels && l.id == labelId
      ensures LabelRouterIds(labels, Some(labelId)) == {l.routerId}
    {
      forall m | m in labels && m.id == labelId ensures m == l {
        var i :| 0 <= i < |labels| && labels[i] == l;
        var j :| 0 <= j < |labels| && labels[j] == m;
        assert i == j;
      }
    }
  }

  // ---------------------------------------------------------------------
  // The label table

  /** The first row with the id. */
  function Find(labels: seq<EsLabelRow>, labelId: string): (r: Option<EsLabelRow>)
    ensures r.Some? ==> r.value in labels && r.value.id == labelId
    ensures r.None? <==> forall l | l in labels :: l.id != labelId
    decreases |labels|
  {
    if |labels| == 0 then None
    else if labels[0].id == labelId then Some(labels[0])
    else
      assert forall l | l in labels :: l == labels[0] || l in labels[1..];
      Find(labels[1..], labelId)
  }

  /** The table without the rows of the id. */
  function Without(labels: seq<EsLabelRow>, labelId: string): seq<EsLabelRow>
    decreases |labels|
  {
    if |labels| == 0 then []
    else
      var last := labels[|labels| - 1];
      Without(labels[..|labels| - 1], labelId) + (if last.id == labelId then [] else [last])
  }

  /** Deleting keeps every other label, in order, and drops the id. */
  lemma {:induction false} WithoutSpec(labels: seq<EsLabelRow>, labelId: string)
    ensures forall l :: l in Without(labels, labelId) <==> l in labels && l.id != labelId
    ensures UniqueIds(labels) ==> UniqueIds(Without(labels, labelId))
    decreases |labels|
  {
    if |labels| > 0 {
      var init := labels[..|labels| - 1];
      var last := labels[|labels| - 1];
      WithoutSpec(init, labelId);
      assert labels == init + [last];
      if UniqueIds(labels) {
        assert UniqueIds(init) by {
          forall i, j | 0 <= i < j < |init| ensures init[i].id != init[j].id {
            assert init[i] == labels[i] && init[j] == labels[j];
          }
        }
        var w0 := Without(init, labelId);
        if last.id != labelId {
          forall i | 0 <= i < |w0| ensures w0[i].id != last.id {
            assert w0[i] in init;
            var j :| 0 <= j < |init| && init[j] == w0[i];
            assert labels[j] == init[j];
          }
        }
      }
    }
  }

  /** A row with the update's attributes written over it. */
  function Updated(row: EsLabelRow, u: LabelUpdate): EsLabelRow
  {
    row.(name := if u.name.Some? then u.name.value else row.name,
         description := if u.description.Some? then u.description.value else row.description)
  }

  /** The table with the row of the id updated. */
  function UpdateRow(labels: seq<EsLabelRow>, labelId: string, u: LabelUpdate): seq<EsLabelRow>
  {
    seq(|labels|, i requires 0 <= i < |labels| => if labels[i].id == labelId then Updated(labels[i], u) else labels[i])
  }

  /** An update changes only the name and description of the row of the
      id, writes each attribute it gives, and leaves every other row, every
      id and every router as they were. */
  lemma UpdateRowSpec(labels: seq<EsLabelRow>, labelId: string, u: LabelUpdate)
    ensures |UpdateRow(labels, labelId, u)| == |labels|
    ensures forall i | 0 <= i < |labels| ::
              var n := UpdateRow(labels, labelId, u)[i];
              n.id == labels[i].id && n.routerId == labels[i].routerId && n.tenantId == labels[i].tenantId
              && n.direction == labels[i].direction && n.internalIp == labels[i].internalIp
              && n.tcpPort == labels[i].tcpPort
              && (labels[i].id != labelId ==> n == labels[i])
              && (labels[i].id == labelId && u.name.Some? ==> n.name == u.name.value)
              && (labels[i].id == labelId && u.description.Some? ==> n.description == u.description.value)
    ensures UniqueIds(labels) ==> UniqueIds(UpdateRow(labels, labelId, u))
  {
  }

  /** `update_es_metering_label` as written: the row is looked up, then
      the misspelt `updte` is called on it, which the row does not have. */
  function UpdateAsWritten(labels: seq<EsLabelRow>, labelId: string, u: LabelUpdate): Result<EsLabelRow>
  {
    if Find(labels, labelId).None? then Err(EsMeteringLabelNotFound(labelId))
    else Err(MissingAttribute("updte"))
  }

  /** No update as written succeeds: an existing label fails on the
      misspelt method whatever the update, and a missing one is not
      found. */
  lemma UpdateAsWrittenFails(labels: seq<EsLabelRow>, labelId: string, u: LabelUpdate)
    ensures Find(labels, labelId).Some? ==> UpdateAsWritten(labels, labelId, u) == Err(MissingAttribute("updte"))
    ensures Find(labels, labelId).None? ==> UpdateAsWritten(labels, labelId, u) == Err(EsMeteringLabelNotFound(labelId))
  {
  }

  /** The dict a router receives for its labels, when it gets the key. */
  class RouterDict {
    const id: string
    /** The label key, absent as None. */
    var esLabels: Option<seq<Label>>

    constructor(id: string, esLabels: Option<seq<Label>>)
      ensures this.id == id && this.esLabels == esLabels
    {
      this.id := id;
      this.esLabels := esLabels;
    }
  }

  /** The label and router tables. */
  class EsMeteringDbMixin {
    var labels: seq<EsLabelRow>
    var routers: map<string, RouterRow>

    /** Label ids are unique, every label's router exists (the foreign
        key), and routers are keyed by their id. */
    ghost predicate Valid()
      reads this
    {
      UniqueIds(labels) && (forall l | l in labels :: l.routerId in routers) && RoutersKeyed(routers)
    }

    constructor(routers: map<string, RouterRow>)
      requires RoutersKeyed(routers)
      ensures Valid() && this.labels == [] && this.routers == routers
    {
      this.labels := [];
      this.routers := routers;
    }

    /** `_get_es_metering_label`, and `get_es_metering_label` with all
        fields. */
    method GetEsMeteringLabel(labelId: string) returns (r: Result<EsLabelRow>)
      ensures r.Ok? <==> exists l | l in labels :: l.id == labelId
      ensures r.Ok? ==> r.value in labels && r.value.id == labelId
      ensures r.Err? ==> r.error == EsMeteringLabelNotFound(labelId)
    {
      var found := Find(labels, labelId);
      if found.None? {
        return Err(EsMeteringLabelNotFound(labelId));
      }
      r := Ok(found.value);
    }

    /** `create_es_metering_label`; `newId` is the generated uuid. */
    method CreateEsMeteringLabel(newId: string, tenantId: string, name: string, description: string,
                                 routerId: string, direction: string, internalIp: Option<string>,
                                 tcpPort: Option<int>) returns (r: Result<EsLabelRow>)
      requires Valid() && forall l | l in labels :: l.id != newId
      modifies this
      ensures Valid() && routers == old(routers)
      ensures routerId !in routers ==> r == Err(RouterNotFound(routerId)) && labels == old(labels)
      ensures routerId in routers ==>
                r == Ok(EsLabelRow(newId, tenantId, name, description, routerId, direction, internalIp, tcpPort))
                && labels == old(labels) + [r.value]
    {
      if routerId !in routers {
        return Err(RouterNotFound(routerId));
      }
      var row := EsLabelRow(newId, tenantId, name, description, routerId, direction, internalIp, tcpPort);
      labels := labels + [row];
      r := Ok(row);
    }

    /** `update_es_metering_label` as evidently intended: the row's
        writable attributes are updated and the row is returned. */
    method UpdateEsMeteringLabel(labelId: string, u: LabelUpdate) returns (r: Result<EsLabelRow>)
      requires Valid()
      modifies this
      ensures Valid() && routers == old(routers)
      ensures r.Err? <==> forall l | l in old(labels) :: l.id != labelId
      ensures r.Err? ==> r.error == EsMeteringLabelNotFound(labelId) && labels == old(labels)
      ensures r.Ok? ==> labels == UpdateRow(old(labels), labelId, u)
                        && r.value in labels && r.value.id == labelId
                        && Find(old(labels), labelId).Some? && r.value == Updated(Find(old(labels), labelId).value, u)
    {
      var found := Find(labels, labelId);
      if found.None? {
        return Err(EsMeteringLabelNotFound(labelId));
      }
      UpdateRowSpec(labels, labelId, u);
      var i :| 0 <= i < |labels| && labels[i] == found.value;
      labels := UpdateRow(labels, labelId, u);
      assert labels[i] == Updated(found.value, u);
      forall l | l in labels ensures l.routerId in routers {
        var j :| 0 <= j < |labels| && labels[j] == l;
        assert old(labels)[j] in old(labels);
      }
      r := Ok(Updated(found.value, u));
    }

    /** `delete_es_metering_label`. */
    method DeleteEsMeteringLabel(labelId: string) returns (err: Option<DbError>)
      requires Valid()
      modifies this
      ensures Valid() && routers == old(routers)
      ensures err.Some? <==> forall l | l in old(labels) :: l.id != labelId
      ensures err.Some? ==> err.value == EsMeteringLabelNotFound(labelId) && labels == old(labels)
      ensures err.None? ==> labels == Without(old(labels), labelId)
    {
      var found := Find(labels, labelId);
      if found.None? {
        return Some(EsMeteringLabelNotFound(labelId));
      }
      WithoutSpec(labels, labelId);
      labels := Without(labels, labelId);
      err := None;
    }

    /** `get_sync_data_metering`. Without router ids the collected set is
        walked in `order`, some order of it. */
    method GetSyncDataMetering(labelId: Option<string>, routerIds: seq<string>)
      returns (ret: seq<SyncRouter>, ghost order: seq<string>)
      ensures |routerIds| > 0 ==> order == routerIds
      ensures |routerIds| == 0 ==> Enumerates(order, LabelRouterIds(labels, labelId))
      ensures ret == SyncData(routers, labels, labelId, order)
    {
      var ids := routerIds;
      if |routerIds| == 0 {
        var collected: set<string> := {};
        for i := 0 to |labels|
          invariant collected == LabelRouterIds(labels[..i], labelId)
        {
          assert labels[..i + 1] == labels[..i] + [labels[i]];
          if !Given(labelId) || labels[i].id == labelId.value {
            collected := collected + {labels[i].routerId};
          }
        }
        assert labels[..|labels|] == labels;
        ids := SetToSeq(collected);
      }
      ret := [];
      for i := 0 to |ids|
        invariant ret == SyncData(routers, labels, labelId, ids[..i])
      {
        assert ids[..i + 1][..i] == ids[..i];
        var routerId := ids[i];
        if routerId in routers && routers[routerId].adminStateUp {
          var router := routers[routerId];
          var selected := SelectLabels(labelId, routerId);
          ret := ret + [SyncRouter(router.id, router.name, router.tenantId, router.adminStateUp, router.status,
                                   router.gwPortId, selected)];
        }
      }
      assert ids[..|ids|] == ids;
      order := ids;
    }

    /** The label-list comprehension of `get_sync_data_metering`. */
    method SelectLabels(labelId: Option<string>, routerId: string) returns (selected: seq<Label>)
      ensures selected == Selected(RouterLabels(labels, routerId), labelId)
    {
      var rows := RouterLabels(labels, routerId);
      selected := [];
      for i := 0 to |rows|
        invariant selected == Selected(rows[..i], labelId)
      {
        assert rows[..i + 1][..i] == rows[..i];
        if labelId.None? || rows[i].id == labelId.value {
          selected := selected + [LabelDict(rows[i])];
        }
      }
      assert rows[..|rows|] == rows;
    }

    /** `update_es_metering_labels_for_router`: the router dict gets the
        list of all its labels when the router exists and has some, and is
        left as it was otherwise. */
    method UpdateEsMeteringLabelsForRouter(router: RouterDict)
      modifies router
      ensures router.id in routers && |RouterLabels(labels, router.id)| > 0 ==>
                router.esLabels == Some(Selected(RouterLabels(labels, router.id), None))
      ensures !(router.id in routers && |RouterLabels(labels, router.id)| > 0) ==>
                router.esLabels == old(router.esLabels)
    {
      if router.id in routers {
        var rows := RouterLabels(labels, router.id);
        if |rows| > 0 {
          var all := SelectLabels(None, router.id);
          router.esLabels := Some(all);
        }
      }
    }
  }

  /** A label just created is found under its id, and after deleting it
      it is gone while the other labels stay. */
  lemma CreateThenFindThenDelete(labels: seq<EsLabelRow>, row: EsLabelRow)
    requires forall l | l in labels :: l.id != row.id
    ensures Find(labels + [row], row.id) == Some(row)
    ensures Without(labels + [row], row.id) == labels
  {
    var t := labels + [row];
    assert Find(t, row.id).Some?;
    assert t[..|t| - 1] == labels;
    WithoutAll(labels, row.id);
  }

  lemma {:induction false} WithoutAll(labels: seq<EsLabelRow>, labelId: string)
    requires forall i | 0 <= i < |labels| :: labels[i].id != labelId
    ensures Without(labels, labelId) == labels
    decreases |labels|
  {
    if |labels| > 0 {
      var init := labels[..|labels| - 1];
      WithoutAll(init, labelId);
      assert labels == init + [labels[|labels| - 1]];
    }
  }
}
