/**
 * The voucher store (controllers/voucherController.js): listing the
 * vouchers a student can redeem, and redeeming one for gamification points.
 */
module Vouchers {
  import opened Common
  import opened Seqs
  import M = Mood

  datatype Voucher = Voucher(
    id: ObjectId,
    title: string,
    description: string,
    pointsCost: int,
    code: string,
    active: bool,
    stock: int)

  /** A redemption document: who redeemed which voucher, its code and the points spent. */
  datatype Redemption = Redemption(student: ObjectId, voucher: ObjectId, code: string, pointsSpent: int)

  /** The reply to a successful redemption. */
  datatype Receipt = Receipt(redemption: Redemption, remainingPoints: int)

  const Unavailable: string := "Voucher unavailable"
  const InsufficientPoints: string := "Insufficient points"

  /** A voucher that can be listed and redeemed: active and in stock. */
  predicate Listable(v: Voucher) {
    v.active && v.stock > 0
  }

  lemma CostOrderIsTotalPreorder()
    ensures TotalPreorder((a: Voucher, b: Voucher) => a.pointsCost <= b.pointsCost)
  {
  }

  /** The listing: exactly the listable vouchers, cheapest first. */
  function ListVouchers(all: seq<Voucher>): (r: seq<Voucher>)
    ensures forall v :: v in r <==> v in all && Listable(v)
    ensures forall i, j :: 0 <= i < j < |r| ==> r[i].pointsCost <= r[j].pointsCost
    ensures multiset(r) == multiset(Filter(all, Listable))
  {
    CostOrderIsTotalPreorder();
    var r := SortBy(Filter(all, Listable), (a: Voucher, b: Voucher) => a.pointsCost <= b.pointsCost);
    assert forall v :: v in r <==> v in multiset(r);
    r
  }

  /**
   * The two guards of a redemption, in the order they run: first the
   * voucher must exist, be active and be in stock; only then is the
   * student's balance (None: no gamification record) checked against the
   * cost. None means both passed.
   */
  function RedeemGuard(voucher: Option<Voucher>, balance: Option<int>): (r: Option<Failure>)
    ensures r == Some(BadRequest(Unavailable)) <==> voucher.None? || !Listable(voucher.value)
    ensures r == Some(BadRequest(InsufficientPoints)) <==>
      voucher.Some? && Listable(voucher.value) && (balance.None? || balance.value < voucher.value.pointsCost)
    ensures r.None? <==>
      voucher.Some? && Listable(voucher.value) && balance.Some? && balance.value - voucher.value.pointsCost >= 0
  {
    assert Unavailable != InsufficientPoints by { assert Unavailable[0] != InsufficientPoints[0]; }
    if voucher.None? || !voucher.value.active || voucher.value.stock <= 0 then Some(BadRequest(Unavailable))
    else if balance.None? || balance.value < voucher.value.pointsCost then Some(BadRequest(InsufficientPoints))
    else None
  }

  /** `Voucher.findById`: the position of the voucher with id `id`. */
  function FindVoucher(vouchers: seq<Voucher>, id: ObjectId): (r: Option<nat>)
    ensures r.Some? ==> r.value < |vouchers| && vouchers[r.value].id == id
    ensures r.None? ==> forall v :: v in vouchers ==> v.id != id
  {
    FindIndex(vouchers, (v: Voucher) => v.id == id)
  }

  function VoucherWithId(vouchers: seq<Voucher>, id: ObjectId): Option<Voucher> {
    match FindVoucher(vouchers, id)
    case Some(i) => Some(vouchers[i])
    case None => None
  }

  /** The student's points: those of their gamification record, None without one. */
  function Balance(records: map<ObjectId, M.GamRecord>, student: ObjectId): Option<int> {
    if student in records then Some(records[student].points) else None
  }

  /**
   * The voucher collection, the redemption collection, and the
   * gamification collection whose points redemptions spend (the same one
   * mood logging recomputes).
   */
  class VoucherShop {
    var vouchers: seq<Voucher>
    var redemptions: seq<Redemption>
    const gamification: M.GamificationStore

    constructor (vouchers: seq<Voucher>, gamification: M.GamificationStore)
      ensures this.vouchers == vouchers && redemptions == [] && this.gamification == gamification
    {
      this.vouchers := vouchers;
      redemptions := [];
      this.gamification := gamification;
    }

    /**
     * Redeem voucher `voucherId` for `student`. A rejected redemption
     * changes nothing; a successful one takes exactly the cost from the
     * student's points, exactly one unit from the voucher's stock, and
     * records the redemption.
     */
    method Redeem(student: ObjectId, voucherId: ObjectId) returns (r: Result<Receipt, Failure>)
      modifies this, gamification
      ensures
        var guard := RedeemGuard(VoucherWithId(old(vouchers), voucherId), Balance(old(gamification.records), student));
        guard.Some? ==> r == Err(guard.value) && unchanged(this, gamification)
      ensures RedeemGuard(VoucherWithId(old(vouchers), voucherId), Balance(old(gamification.records), student)).None? ==>
        var i := FindVoucher(old(vouchers), voucherId).value;
        var v := old(vouchers)[i];
        var gam := old(gamification.records)[student];
        && gamification.records == old(gamification.records)[student := gam.(points := gam.points - v.pointsCost)]
        && vouchers == old(vouchers)[i := v.(stock := v.stock - 1)]
        && redemptions == old(redemptions) + [Redemption(student, voucherId, v.code, v.pointsCost)]
        && r == Ok(Receipt(redemptions[|redemptions| - 1], gamification.records[student].points))
        && gamification.records[student].points >= 0
    {
      var found := FindVoucher(vouchers, voucherId);
      if found.None? || !vouchers[found.value].active || vouchers[found.value].stock <= 0 {
        return Err(BadRequest(Unavailable));
      }
      var i := found.value;
      var voucher := vouchers[i];
      if student !in gamification.records || gamification.records[student].points < voucher.pointsCost {
        return Err(BadRequest(InsufficientPoints));
      }

      var gam := gamification.records[student];
      gam := gam.(points := gam.points - voucher.pointsCost);
      gamification.records := gamification.records[student := gam];
      vouchers := vouchers[i := voucher.(stock := voucher.stock - 1)];

      var redemption := Redemption(student, voucher.id, voucher.code, voucher.pointsCost);
      redemptions := redemptions + [redemption];
      r := Ok(Receipt(redemption, gam.points));
    }
  }
}
