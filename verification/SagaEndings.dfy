/** What a saga that ends in success leaves behind. */
module SagaEndings {
  import opened Common
  import opened SagaGraph
  import opened WorldModel
  import O = Offerings
  import Agreement
  import Freeze
  import Ownership
  import SagaOutcome
  import SilentSync
  import Visibility

  /** The step by which a saga succeeds: its offering is PUBLISHED; where no deletion was lost it is stored if
      and only if the saga's Create Store Entry sync worked; and where no price was taken from its holder all
      its prices are locked under the id of the saga. */
  lemma SucceededSagaLeavesAll(cfg: Config, acts: seq<Action>, a: Action, p: Id)
    requires p in Run(cfg, acts).procs && !IsEnd(SagaOutcome.TaskOf(Run(cfg, acts).procs[p].token))
    requires var w' := Run(cfg, acts + [a]); p in w'.procs && w'.procs[p].token == At(Succeeded)
    ensures var w' := Run(cfg, acts + [a]);
            var o := w'.procs[p].offering;
            && o in w'.offerings.table && w'.offerings.table[o].status == O.PUBLISHED
            && (Visibility.NoLostDelete(cfg, acts) ==> (o in w'.docs <==> p in SilentSync.Record(cfg, acts).stored))
            && (Ownership.NoTheft(cfg, acts + [a]) ==>
                  forall x :: x in w'.offerings.table[o].content.priceIds ==>
                    Ownership.IsLockedBy(w'.prices.table, x, p))
  {
    var w, w' := Run(cfg, acts), Run(cfg, acts + [a]);
    assert (acts + [a])[..|acts + [a]| - 1] == acts;
    Agreement.RunKeepsInv(cfg, acts);
    SagaOutcome.SucceedsByConfirming(cfg, w, a, p);
    if Visibility.NoLostDelete(cfg, acts) {
      SilentSync.RunKeepsInv(cfg, acts);
      assert SilentSync.ProcFits(w, SilentSync.Record(cfg, acts), p);
    }
    if Ownership.NoTheft(cfg, acts + [a]) { LocksAtSuccess(cfg, acts + [a], p); }
  }

  lemma LocksAtSuccess(cfg: Config, acts: seq<Action>, p: Id)
    requires Ownership.NoTheft(cfg, acts)
    requires var w := Run(cfg, acts); p in w.procs && w.procs[p].token == At(Succeeded)
    ensures var w := Run(cfg, acts);
            var o := w.procs[p].offering;
            && o in w.offerings.table
            && forall x :: x in w.offerings.table[o].content.priceIds ==> Ownership.IsLockedBy(w.prices.table, x, p)
  {
    Agreement.RunKeepsInv(cfg, acts);
    assert Agreement.Agrees(Run(cfg, acts), p);
    forall x | x in Run(cfg, acts).procs[p].priceIds ensures Ownership.IsLockedBy(Run(cfg, acts).prices.table, x, p) {
      Freeze.SagaHoldsItsPrices(cfg, acts, p, x);
    }
  }
}
