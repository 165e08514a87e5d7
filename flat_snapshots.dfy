/** The snapshots of `flat.test.ts`, as lemmas over the model of `flatJson`.
    Each expected text is written with the same grouping as the renderer
    produces it: one group per rendered line, lines joined by "\n". */
module FlatSnapshots {
  import opened Common
  import opened Flat

  lemma SimpleSnapshot()
    ensures FlatJson(JObj([("a", JNum(1))]), 0) == "a=1"
  {
    assert NatToString(1) == "1";
  }

  lemma NestedSnapshot()
    ensures FlatJson(JObj([("a", JObj([("b", JNum(2))]))]), 0) == "a\nb=2"
  {
    assert NatToString(2) == "2";
    assert FlatJson(JObj([("b", JNum(2))]), 1) == "b=2";
  }

  lemma DatePair(iso1: string, iso2: string, depth: nat)
    ensures FlatJson(JArr([JDate(iso1), JDate(iso2)]), depth)
         == Tabs(depth) + "0 " + iso1 + "\n" + Tabs(depth) + "1 " + iso2
  {
    SmallArray(JDate(iso1), JDate(iso2), depth);
  }

  lemma DateEntry(key: string, iso: string, depth: nat)
    ensures EntryText(key, JDate(iso), depth) == key + "=" + iso
  {
  }

  lemma StrEntry(key: string, text: string, depth: nat)
    ensures EntryText(key, JStr(text), depth) == key + "=" + text
  {
  }

  lemma NumEntry(key: string, depth: nat)
    ensures EntryText(key, JNum(1), depth) == key + "=" + "1"
  {
    FirstDigits();
  }

  lemma NestedEntryText(key: string, value: Json, depth: nat)
    requires value.JObj? || value.JArr?
    ensures EntryText(key, value, depth) == key + "\n" + FlatJson(value, depth + 1)
  {
  }

  /** `{date1, date2, dates: [date1, date2]}` two levels deep:
      date1=ISO1 / \t\tdate2=ISO2 / \t\tdates / \t\t\t0 ISO1 / \t\t\t1 ISO2. */
  lemma DeeplySnapshot(iso1: string, iso2: string)
    ensures FlatJson(JObj([("date1", JDate(iso1)), ("date2", JDate(iso2)), ("dates", JArr([JDate(iso1), JDate(iso2)]))]), 2)
         == ("date1" + "=" + iso1) + "\n"
          + ("\t\t" + ("date2" + "=" + iso2)) + "\n"
          + ("\t\t" + ("dates" + "\n" + ("\t\t\t" + "0 " + iso1 + "\n" + "\t\t\t" + "1 " + iso2)))
  {
    var dates := JArr([JDate(iso1), JDate(iso2)]);
    ObjectThree("date1", JDate(iso1), "date2", JDate(iso2), "dates", dates, 2);
    DateEntry("date1", iso1, 2);
    DateEntry("date2", iso2, 2);
    NestedEntryText("dates", dates, 2);
    DatePair(iso1, iso2, 3);
    TabsSmall();
  }

  /** The dates snapshot, for any two ISO strings: a Date renders as its ISO
      string as a field (`key=ISO`), as an array element and nested two
      objects deep, where the `deeply` object starts on its own line without
      indentation. */
  lemma DatesSnapshot(iso1: string, iso2: string)
    ensures var d1, d2 := JDate(iso1), JDate(iso2);
            var deeply := ("date1" + "=" + iso1) + "\n"
                        + ("\t\t" + ("date2" + "=" + iso2)) + "\n"
                        + ("\t\t" + ("dates" + "\n" + ("\t\t\t" + "0 " + iso1 + "\n" + "\t\t\t" + "1 " + iso2)));
            FlatJson(JObj([
              ("date1", d1),
              ("dates", JArr([d1, d2])),
              ("nested", JObj([("deeply", JObj([("date1", d1), ("date2", d2), ("dates", JArr([d1, d2]))]))]))
            ]), 0)
            == ("date1" + "=" + iso1) + "\n"
             + ("" + ("dates" + "\n" + ("\t" + "0 " + iso1 + "\n" + "\t" + "1 " + iso2))) + "\n"
             + ("" + ("nested" + "\n" + ("deeply" + "\n" + deeply)))
  {
    var d1, d2 := JDate(iso1), JDate(iso2);
    var deeply := JObj([("date1", d1), ("date2", d2), ("dates", JArr([d1, d2]))]);
    var nested := JObj([("deeply", deeply)]);
    ObjectThree("date1", d1, "dates", JArr([d1, d2]), "nested", nested, 0);
    DateEntry("date1", iso1, 0);
    NestedEntryText("dates", JArr([d1, d2]), 0);
    DatePair(iso1, iso2, 1);
    NestedEntryText("nested", nested, 0);
    ObjectOne("deeply", deeply, 1);
    NestedEntryText("deeply", deeply, 1);
    DeeplySnapshot(iso1, iso2);
    TabsSmall();
  }

  /** `{id, qty: 1}` as an array element nested once:
      id=ID / \t\tqty=1. */
  lemma ItemObject(id: string)
    ensures FlatJson(JObj([("id", JStr(id)), ("qty", JNum(1))]), 2)
         == ("id" + "=" + id) + "\n" + ("\t\t" + ("qty" + "=" + "1"))
  {
    ObjectTwo("id", JStr(id), "qty", JNum(1), 2);
    StrEntry("id", id, 2);
    NumEntry("qty", 2);
    TabsSmall();
  }

  /** An array of two records: each record follows its index on the index's
      line. */
  lemma ItemsArray(id1: string, id2: string)
    ensures FlatJson(JArr([JObj([("id", JStr(id1)), ("qty", JNum(1))]), JObj([("id", JStr(id2)), ("qty", JNum(1))])]), 1)
         == "\t" + "0 " + (("id" + "=" + id1) + "\n" + ("\t\t" + ("qty" + "=" + "1")))
          + "\n" + "\t" + "1 " + (("id" + "=" + id2) + "\n" + ("\t\t" + ("qty" + "=" + "1")))
  {
    SmallArray(JObj([("id", JStr(id1)), ("qty", JNum(1))]), JObj([("id", JStr(id2)), ("qty", JNum(1))]), 1);
    ItemObject(id1);
    ItemObject(id2);
    TabsSmall();
  }

  /** An excerpt of the receipt snapshot: a `{$date: ...}` object renders as a
      nested object on the next line; in a nested record the entries after the
      first carry the nesting depth in tabs; an array of records shows each
      record after its index. */
  lemma ReceiptSnapshotExcerpt(date: string, termId: string, shop: string)
    ensures FlatJson(JObj([
              ("date", JObj([("$date", JStr(date))])),
              ("items", JArr([JObj([("id", JStr("1")), ("qty", JNum(1))]), JObj([("id", JStr("2")), ("qty", JNum(1))])])),
              ("paymentDetails", JObj([("TERM.ID", JStr(termId)), ("BUTIKSNR", JStr(shop))]))
            ]), 0)
            == ("date" + "\n" + ("$date" + "=" + date)) + "\n"
             + ("" + ("items" + "\n"
                 + ("\t" + "0 " + (("id" + "=" + "1") + "\n" + ("\t\t" + ("qty" + "=" + "1")))
                  + "\n" + "\t" + "1 " + (("id" + "=" + "2") + "\n" + ("\t\t" + ("qty" + "=" + "1")))))) + "\n"
             + ("" + ("paymentDetails" + "\n" + (("TERM.ID" + "=" + termId) + "\n" + ("\t" + ("BUTIKSNR" + "=" + shop)))))
  {
    var d := JObj([("$date", JStr(date))]);
    var items := JArr([JObj([("id", JStr("1")), ("qty", JNum(1))]), JObj([("id", JStr("2")), ("qty", JNum(1))])]);
    var pd := JObj([("TERM.ID", JStr(termId)), ("BUTIKSNR", JStr(shop))]);
    ObjectThree("date", d, "items", items, "paymentDetails", pd, 0);
    NestedEntryText("date", d, 0);
    ObjectOne("$date", JStr(date), 1);
    StrEntry("$date", date, 1);
    NestedEntryText("items", items, 0);
    ItemsArray("1", "2");
    NestedEntryText("paymentDetails", pd, 0);
    ObjectTwo("TERM.ID", JStr(termId), "BUTIKSNR", JStr(shop), 1);
    StrEntry("TERM.ID", termId, 1);
    StrEntry("BUTIKSNR", shop, 1);
    TabsSmall();
  }
}
