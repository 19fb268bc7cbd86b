/**
 * The column schema of the enquiry report and the six derived columns the
 * dashboard adds to every row before grouping. Raw columns come first, in a
 * fixed order; the derived ones are appended in the order the script assigns
 * them, so a later formula can read an earlier derived column.
 */
module Derivation {
  import opened Wrappers
  import opened Frame

  // Raw columns read from the sheet.
  const OlEnqLessTbd: nat := 0
  const StoreEnqLessTbd: nat := 1
  const StoreConversion: nat := 2
  const StoresRes: nat := 3
  const OnlineResPurConversion: nat := 4
  const OnlineRes: nat := 5
  const OnlineDropOutConversion: nat := 6
  const WcfConversion: nat := 7
  const ResWcf: nat := 8
  const OnlineDropouts: nat := 9
  const StWalkinLessTbd: nat := 10
  const StInCallLessTbd: nat := 11
  const StResWalkin: nat := 12
  const StResInCall: nat := 13
  // Derived columns, appended by the script.
  const TotalEnquiries: nat := 14
  const StoreReservations: nat := 15
  const OnlineEnqResOnline: nat := 16
  const OnlineEnqResInStore: nat := 17
  const OnlineReservations: nat := 18
  const TotalReservations: nat := 19

  const RawHeader: seq<string> :=
    ["OL Enq less TBD", "Store Enq less TBD", "StoreConversion", "Stores Res",
     "OnlineResPurConversion", "OnlineRes", "OnlineDropOutConversion", "WCFConversion",
     "RES WCF", "Online Dropouts", "STwalkin less TBD", "STInCall less TBD",
     "StResWalkin", "StResInCall"]

  const DerivedHeader: seq<string> :=
    ["Total Enquiries", "Store Reservations", "Online Enq Res Online",
     "Online Enq Res in Store", "Online Reservations", "Total Reservations"]

  /** The numeric columns of the table after derivation, in column order. */
  const Header: seq<string> := RawHeader + DerivedHeader

  const RawWidth: nat := 14
  const FullWidth: nat := 20

  lemma HeaderShape()
    ensures |RawHeader| == RawWidth && |Header| == FullWidth
    ensures forall i, j :: 0 <= i < j < |Header| ==> Header[i] != Header[j]
  {
  }

  /** Each derived column is named apart from the raw columns and the derived columns before it. */
  lemma DerivedNamesAreNew()
    ensures forall k :: 0 <= k < |DerivedHeader| ==> DerivedHeader[k] !in RawHeader + DerivedHeader[..k]
  {
    HeaderShape();
    forall k | 0 <= k < |DerivedHeader|
      ensures DerivedHeader[k] !in RawHeader + DerivedHeader[..k]
    {
      assert RawHeader + DerivedHeader[..k] == Header[..RawWidth + k];
      assert DerivedHeader[k] == Header[RawWidth + k];
    }
  }

  /** `Total Enquiries`: online plus store enquiries, with no fallback. */
  function TotalEnquiriesOf(c: seq<Cell>): (r: Cell)
    requires |c| == RawWidth
    ensures r.Some? <==> c[OlEnqLessTbd].Some? && c[StoreEnqLessTbd].Some?
    ensures r.Some? ==> r.value == c[OlEnqLessTbd].value + c[StoreEnqLessTbd].value
  {
    Plus(c[OlEnqLessTbd], c[StoreEnqLessTbd])
  }

  /** `Store Reservations`: the conversion count, else the reported store reservations. */
  function StoreReservationsOf(c: seq<Cell>): (r: Cell)
    requires |c| == RawWidth
    ensures c[StoreConversion].Some? ==> r == c[StoreConversion]
    ensures c[StoreConversion].None? ==> r == c[StoresRes]
    ensures r.Some? <==> c[StoreConversion].Some? || c[StoresRes].Some?
  {
    Coalesce(c[StoreConversion], c[StoresRes])
  }

  /** `Online Enq Res Online`: the purchase conversion count, else the reported online reservations. */
  function OnlineEnqResOnlineOf(c: seq<Cell>): (r: Cell)
    requires |c| == RawWidth
    ensures c[OnlineResPurConversion].Some? ==> r == c[OnlineResPurConversion]
    ensures c[OnlineResPurConversion].None? ==> r == c[OnlineRes]
    ensures r.Some? <==> c[OnlineResPurConversion].Some? || c[OnlineRes].Some?
  {
    Coalesce(c[OnlineResPurConversion], c[OnlineRes])
  }

  /**
   * `Online Enq Res in Store`: the sum of the two conversion counts; when
   * either is missing the whole sum is replaced by the sum of the two
   * reported counts. The result never pairs a conversion addend with a
   * reported one.
   */
  function OnlineEnqResInStoreOf(c: seq<Cell>): (r: Cell)
    requires |c| == RawWidth
    ensures c[OnlineDropOutConversion].Some? && c[WcfConversion].Some? ==>
              r == Some(c[OnlineDropOutConversion].value + c[WcfConversion].value)
    ensures c[OnlineDropOutConversion].None? || c[WcfConversion].None? ==>
              (r.Some? <==> c[ResWcf].Some? && c[OnlineDropouts].Some?) &&
              (r.Some? ==> r.value == c[ResWcf].value + c[OnlineDropouts].value)
  {
    Coalesce(Plus(c[OnlineDropOutConversion], c[WcfConversion]), Plus(c[ResWcf], c[OnlineDropouts]))
  }

  /** `Online Reservations`: reservations made online plus those collected in store. */
  function OnlineReservationsOf(c: seq<Cell>): (r: Cell)
    requires |c| == RawWidth
    ensures r.Some? <==> OnlineEnqResOnlineOf(c).Some? && OnlineEnqResInStoreOf(c).Some?
    ensures r.Some? ==> r.value == OnlineEnqResOnlineOf(c).value + OnlineEnqResInStoreOf(c).value
  {
    Plus(OnlineEnqResOnlineOf(c), OnlineEnqResInStoreOf(c))
  }

  /** `Total Reservations`: online reservations plus store reservations. */
  function TotalReservationsOf(c: seq<Cell>): (r: Cell)
    requires |c| == RawWidth
    ensures r.Some? <==> OnlineReservationsOf(c).Some? && StoreReservationsOf(c).Some?
    ensures r.Some? ==> r.value == OnlineReservationsOf(c).value + StoreReservationsOf(c).value
  {
    Plus(OnlineReservationsOf(c), StoreReservationsOf(c))
  }

  /** A raw row's cells followed by its six derived cells, in `Header` order. */
  function Derive(c: seq<Cell>): (r: seq<Cell>)
    requires |c| == RawWidth
    ensures |r| == FullWidth && r[..RawWidth] == c
    ensures r[TotalEnquiries] == TotalEnquiriesOf(c)
    ensures r[StoreReservations] == StoreReservationsOf(c)
    ensures r[OnlineEnqResOnline] == OnlineEnqResOnlineOf(c)
    ensures r[OnlineEnqResInStore] == OnlineEnqResInStoreOf(c)
    ensures r[OnlineReservations] == OnlineReservationsOf(c)
    ensures r[TotalReservations] == TotalReservationsOf(c)
  {
    c + [TotalEnquiriesOf(c), StoreReservationsOf(c), OnlineEnqResOnlineOf(c),
         OnlineEnqResInStoreOf(c), OnlineReservationsOf(c), TotalReservationsOf(c)]
  }

  /**
   * Every reservation component has a source: a store count of either kind,
   * an online count of either kind, and a complete pair of in-store
   * collection counts of either kind.
   */
  predicate ReservationsReported(c: seq<Cell>)
    requires |c| == RawWidth
  {
    (c[StoreConversion].Some? || c[StoresRes].Some?)
    && (c[OnlineResPurConversion].Some? || c[OnlineRes].Some?)
    && ((c[OnlineDropOutConversion].Some? && c[WcfConversion].Some?)
        || (c[ResWcf].Some? && c[OnlineDropouts].Some?))
  }

  /**
   * When every component is reported, all derived reservation columns are
   * present and satisfy the sum-of-sums identities; conversely a present
   * `Total Reservations` means every component was reported.
   */
  lemma SumOfSums(c: seq<Cell>)
    requires |c| == RawWidth
    ensures ReservationsReported(c) <==> Derive(c)[TotalReservations].Some?
    ensures ReservationsReported(c) ==>
              var d := Derive(c);
              d[StoreReservations].Some? && d[OnlineEnqResOnline].Some? && d[OnlineEnqResInStore].Some?
              && d[OnlineReservations] == Some(d[OnlineEnqResOnline].value + d[OnlineEnqResInStore].value)
              && d[TotalReservations] == Some(d[OnlineReservations].value + d[StoreReservations].value)
  {
  }

  /**
   * The fallback of `Online Enq Res in Store` replaces the whole sum: with a
   * conversion count present but its partner missing, the result is the
   * reported pair's sum, not a mix of the conversion count and a reported one.
   */
  lemma InStoreFallbackIsWholeSum()
    ensures var c := [None, None, None, None, None, None, Some(1), None, Some(10), Some(20),
                      None, None, None, None];
            OnlineEnqResInStoreOf(c) == Some(30)
            && Plus(Coalesce(c[OnlineDropOutConversion], c[ResWcf]),
                    Coalesce(c[WcfConversion], c[OnlineDropouts])) == Some(21)
  {
  }
}
