/** The one-call task handlers of the saga, against the services they call. */
module SagaWorkers {
  import opened Common
  import opened SagaGraph
  import O = Offerings
  import S = Specifications
  import St = Store

  // ---- what the handlers compute ------------------------------------------------------------------

  ghost function ConfirmHandler(db: O.Db, o: Id, now: int, net: Net): (O.Db, Outcome) {
    var (served, reply) := O.Serve(db, O.Confirm(o, now));
    (if net.Ran() then served else db, Report(ConfirmPublication, reply == O.Ok, net))
  }

  ghost function RevertHandler(db: O.Db, o: Id, net: Net): (O.Db, Outcome) {
    var (served, reply) := O.Serve(db, O.Fail(o));
    (if net.Ran() then served else db, Report(RevertToDraft, reply == O.Ok, net))
  }

  ghost function ValidateHandler(table: S.Table, ids: seq<Id>, net: Net): Outcome {
    Report(ValidateSpecs, S.AllFound(table, ids), net)
  }

  /** halfway: a call that does not run to its end got as far as the document store. */
  ghost function CreateHandler(st: St.State, src: St.Sources, o: Id, net: Net, halfway: bool): (St.State, Outcome) {
    (St.State(St.SyncAll(st.mongo, src, {o}, net.Ran() || halfway),
              St.SyncAll(st.es, src, {o}, net.Ran()), st.processed),
     Report(CreateStoreEntry, true, net))
  }

  ghost function DeleteHandler(st: St.State, o: Id, net: Net, halfway: bool): (St.State, Outcome) {
    (St.State(if net.Ran() || halfway then st.mongo - {o} else st.mongo,
              if net.Ran() then st.es - {o} else st.es, st.processed),
     Report(DeleteStoreEntry, true, net))
  }

  // ---- how a handler ends ---------------------------------------------------------------------------

  /** It raises exactly when the client library does, and completes exactly when it gets the good status;
      anything else is its BPMN error. */
  ghost predicate EndsGuarded(out: Outcome, net: Net, good: bool) {
    && (out == Raised <==> net == Dropped || net == ReplyLost)
    && (out == Completed <==> good)
  }

  /** It raises exactly when the client library does, and completes otherwise, whatever the status. */
  ghost predicate EndsCompensating(out: Outcome, net: Net) {
    (out == Raised <==> net == Dropped || net == ReplyLost) && out != BpmnError
  }

  // ---- the handlers ---------------------------------------------------------------------------------

  /** POST /confirm: any status but 200 is a BPMN error. */
  method HandleConfirmPublication(service: O.OfferingService, o: Id, now: int, net: Net) returns (out: Outcome)
    requires net != Hollow
    modifies service
    ensures (service.Value(), out) == ConfirmHandler(old(service.Value()), o, now, net)
    ensures EndsGuarded(out, net, net == Delivered && o in old(service.table)
                                  && old(service.table)[o].status == O.PUBLISHING)
    ensures if net == Delivered || net == ReplyLost then
              exists r :: O.Confirms(old(service.Value()), o, now, service.Value(), r)
            else service.Value() == old(service.Value())
  {
    var status200 := false;
    if net.Ran() {
      var reply := service.ConfirmPublication(o, now);
      status200 := reply == O.Ok;
    }
    if net.Raises() { return Raised; }
    if !status200 { return BpmnError; }
    out := Completed;
  }

  /** POST /fail: a bad status is logged, the task completes all the same. */
  method HandleRevertToDraft(service: O.OfferingService, o: Id, net: Net) returns (out: Outcome)
    requires net != Hollow
    modifies service
    ensures (service.Value(), out) == RevertHandler(old(service.Value()), o, net)
    ensures EndsCompensating(out, net)
    ensures if net == Delivered || net == ReplyLost then
              exists r :: O.Fails(old(service.Value()), o, service.Value(), r)
            else service.Value() == old(service.Value())
  {
    if net.Ran() { var _ := service.FailPublication(o); }
    if net.Raises() { return Raised; }
    out := Completed;
  }

  /** POST /validate: reads only. */
  method HandleValidateSpecs(service: S.SpecificationService, ids: seq<Id>, net: Net) returns (out: Outcome)
    requires net != Hollow
    ensures out == ValidateHandler(service.table, ids, net)
    ensures EndsGuarded(out, net, net == Delivered && forall s :: s in ids ==> s in service.table)
  {
    if net.Raises() { return Raised; }
    var status204 := false;
    if net.Ran() { status204 := service.ValidateSpecifications(ids); }
    if !status204 { return BpmnError; }
    out := Completed;
  }

  /** POST /sync: the endpoint answers 204 whether or not the sync inside it worked. */
  method HandleCreateStoreEntry(service: St.StoreService, src: St.Sources, o: Id, net: Net, halfway: bool)
    returns (out: Outcome)
    modifies service
    ensures (service.Value(), out) == CreateHandler(old(service.Value()), src, o, net, halfway)
    ensures EndsGuarded(out, net, net == Delivered || net == Hollow)
    ensures St.Syncs(old(service.mongo), src, if net == Delivered || net == ReplyLost || halfway then {o} else {},
                     service.mongo)
    ensures St.Syncs(old(service.es), src, if net == Delivered || net == ReplyLost then {o} else {}, service.es)
    ensures service.processed == old(service.processed)
  {
    St.SyncAllSyncs(service.mongo, src, {o});
    St.SyncAllSyncs(service.es, src, {o});
    service.SyncOffering(src, o, net.Ran() || halfway, net.Ran());
    if net.Raises() { return Raised; }
    if net != Delivered && net != Hollow { return BpmnError; }
    out := Completed;
  }

  /** DELETE /offerings: a bad status is logged, the task completes all the same. */
  method HandleDeleteStoreEntry(service: St.StoreService, o: Id, net: Net, halfway: bool) returns (out: Outcome)
    requires net != Hollow
    modifies service
    ensures (service.Value(), out) == DeleteHandler(old(service.Value()), o, net, halfway)
    ensures EndsCompensating(out, net)
    ensures St.Drops(old(service.mongo), o, net == Delivered || net == ReplyLost || halfway, service.mongo)
    ensures St.Drops(old(service.es), o, net == Delivered || net == ReplyLost, service.es)
    ensures service.processed == old(service.processed)
  {
    if net.Ran() || halfway {
      var _ := service.RetireOffering(o, if net.Ran() then St.Through else St.AtSecond);
    }
    if net.Raises() { return Raised; }
    out := Completed;
  }
}
