/**
 * The fixed metric catalogue that fills the dropdown and titles both charts:
 * ten (label, column key) entries in dropdown order, the first being the
 * default selection.
 */
module Catalogue {
  import opened Wrappers
  import opened Derivation

  datatype Entry = Entry(labelText: string, value: string)

  const Options: seq<Entry> :=
    [Entry("Online Enquiries", "OL Enq less TBD"),
     Entry("Store Enquiries", "Store Enq less TBD"),
     Entry("Total Enquiries", "Total Enquiries"),
     Entry("Walk-in Enquiries", "STwalkin less TBD"),
     Entry("Phone-in Enquiries", "STInCall less TBD"),
     Entry("Online Reservations", "Online Reservations"),
     Entry("Store Reservations", "Store Reservations"),
     Entry("Total Reservations", "Total Reservations"),
     Entry("Walk-in Reservations", "StResWalkin"),
     Entry("Phone-in Reservations", "StResInCall")]

  /** True when some catalogue entry selects column `key`. */
  predicate InCatalogue(key: string)
  {
    exists i :: 0 <= i < |Options| && Options[i].value == key
  }

  /**
   * The catalogue has ten entries with pairwise distinct keys, every key is
   * a column of the derived table, and the default selection is the first
   * entry's key.
   */
  lemma CatalogueShape()
    ensures |Options| == 10
    ensures forall i, k :: 0 <= i < k < |Options| ==> Options[i].value != Options[k].value
    ensures forall i :: 0 <= i < |Options| ==> Options[i].value in Header
    ensures DefaultValue() == Options[0].value == "OL Enq less TBD"
  {
  }

  /** The dropdown's initial value, `options[0]['value']`. */
  function DefaultValue(): (v: string)
    ensures InCatalogue(v)
  {
    Options[0].value
  }

  /** `[e for e in entries if e['value'] == key]`, in catalogue order. */
  function Matches(entries: seq<Entry>, key: string): (r: seq<Entry>)
    ensures forall e :: e in r <==> e in entries && e.value == key
    ensures r != [] ==> exists i :: 0 <= i < |entries| && entries[i] == r[0]
                                    && forall k :: 0 <= k < i ==> entries[k].value != key
  {
    if entries == [] then []
    else if entries[0].value == key then [entries[0]] + Matches(entries[1..], key)
    else Matches(entries[1..], key)
  }

  /**
   * The chart title for a selected key, `chart_title[0]['label']`; None where
   * the source raises IndexError because no entry has that key.
   */
  function Title(key: string): (r: Option<string>)
    ensures r.Some? <==> InCatalogue(key)
    ensures r.Some? ==> exists i :: 0 <= i < |Options| && Options[i].value == key && Options[i].labelText == r.value
  {
    var m := Matches(Options, key);
    if m == [] then None
    else
      assert m[0] in m;
      Some(m[0].labelText)
  }

  /** Selecting an entry titles the chart with that entry's own label. */
  lemma TitleOfEntry(i: nat)
    requires i < |Options|
    ensures Title(Options[i].value) == Some(Options[i].labelText)
  {
    CatalogueShape();
    var m := Matches(Options, Options[i].value);
    assert Options[i] in m;
    var i0 :| 0 <= i0 < |Options| && Options[i0] == m[0];
    assert Options[i0].value == Options[i].value;
  }
}
