/** The institution picker of the verify flow (`showBankSelection`): a
    stateless page of the institution list and the inline keyboard laid out
    for it. The page index travels in the button data, not in a session. */
module BankPages {
  import opened Base
  import Text
  import opened Payment

  const BanksPerPage: nat := 8

  /** Names longer than this are cut and get "..." appended. */
  const LabelLimit: nat := 20

  function Min(a: int, b: int): int {
    if a <= b then a else b
  }

  /** `Math.ceil(n / BanksPerPage)`: the least page count whose pages hold
      `n` institutions. */
  function TotalPages(n: nat): (r: nat)
    ensures BanksPerPage * r >= n
    ensures r == 0 || BanksPerPage * (r - 1) < n
  {
    (n + BanksPerPage - 1) / BanksPerPage
  }

  /** `s.slice(start, end)` for non-negative bounds: both are clamped to the
      length, and the slice is empty unless `start < end`. */
  function Slice<T>(s: seq<T>, start: nat, end: nat): (r: seq<T>)
    ensures start >= |s| || end <= start ==> r == []
    ensures |r| <= |s|
    ensures forall k :: 0 <= k < |r| ==> start + k < |s| && r[k] == s[start + k]
    ensures start < end && start < |s| ==> |r| == Min(end, |s|) - start
  {
    var a := Min(start, |s|);
    var b := Min(end, |s|);
    if a < b then s[a..b] else []
  }

  /** The institutions shown on page `page` (counted from 0): positions
      `BanksPerPage * page` up to the next page's start or the end of the list.
      A page past the last one is empty. */
  function PageSlice(list: seq<Institution>, page: nat): (r: seq<Institution>)
    ensures |r| <= BanksPerPage
    ensures page >= TotalPages(|list|) ==> r == []
    ensures page < TotalPages(|list|) ==>
              |r| > 0 && BanksPerPage * page + |r| == Min(BanksPerPage * page + BanksPerPage, |list|)
    ensures forall k :: 0 <= k < |r| ==>
              BanksPerPage * page + k < |list| && r[k] == list[BanksPerPage * page + k]
  {
    var start := page * BanksPerPage;
    var end := Min(start + BanksPerPage, |list|);
    Slice(list, start, end)
  }

  // ---------------------------------------------------------------------
  // Keyboard

  /** What a button press sends back: `select_bank_<code>`,
      `banks_page_<n>`, `page_info` or `verify`. */
  datatype Action = SelectBank(code: string) | BanksPage(page: int) | PageInfo | OpenVerify

  datatype Button = Button(caption: string, action: Action)

  type Row = seq<Button>

  /** A bank button's label: the name, cut to its first `LabelLimit`
      characters followed by "..." when it is longer. */
  function Label(name: string): (r: string)
    ensures |r| <= LabelLimit + 3
    ensures |name| <= LabelLimit ==> r == name
    ensures |name| > LabelLimit ==>
              |r| == LabelLimit + 3 && r[..LabelLimit] == name[..LabelLimit] && r[LabelLimit..] == "..."
  {
    if |name| > LabelLimit then name[..LabelLimit] + "..." else name
  }

  function BankButton(b: Institution): Button {
    Button(Label(b.name), SelectBank(b.code))
  }

  /** One button per institution, in list order. */
  function BankButtons(banks: seq<Institution>): (r: seq<Button>)
    ensures |r| == |banks|
    ensures forall k :: 0 <= k < |banks| ==> r[k] == BankButton(banks[k])
    decreases |banks|
  {
    if |banks| == 0 then [] else [BankButton(banks[0])] + BankButtons(banks[1..])
  }

  /** The buttons of `rows`, row after row. */
  function Flatten(rows: seq<Row>): seq<Button> {
    if |rows| == 0 then [] else rows[0] + Flatten(rows[1..])
  }

  /** The bank part of the keyboard: the page's institutions two to a row. */
  function BankRows(banks: seq<Institution>): (rows: seq<Row>)
    ensures |rows| == (|banks| + 1) / 2
    decreases |banks|
  {
    if |banks| == 0 then []
    else if |banks| == 1 then [[BankButton(banks[0])]]
    else [[BankButton(banks[0]), BankButton(banks[1])]] + BankRows(banks[2..])
  }

  /** The rows hold the institutions in order, two to a row, the last row
      holding a single one when their number is odd. */
  lemma {:induction false} BankRowsLayout(banks: seq<Institution>)
    ensures var rows := BankRows(banks);
            && (forall i :: 0 <= i < |rows| ==> 1 <= |rows[i]| <= 2)
            && (forall i :: 0 <= i < |rows| - 1 ==> |rows[i]| == 2)
            && Flatten(rows) == BankButtons(banks)
    decreases |banks|
  {
    if |banks| >= 2 {
      BankRowsLayout(banks[2..]);
      var first := [BankButton(banks[0]), BankButton(banks[1])];
      var rest := BankRows(banks[2..]);
      var rows := BankRows(banks);
      assert rows == [first] + rest;
      assert rows[1..] == rest;
      forall i | 1 <= i < |rows|
        ensures rows[i] == rest[i - 1]
      {
      }
      assert banks[1..][1..] == banks[2..];
      assert BankButtons(banks) == first + BankButtons(banks[2..]);
    } else if |banks| == 1 {
      assert BankButtons(banks[1..]) == [];
    }
  }

  function PreviousButton(page: nat): Button {
    Button("\U{2B05}\U{FE0F} Previous", BanksPage(page - 1))
  }

  function NextButton(page: nat): Button {
    Button("Next \U{27A1}\U{FE0F}", BanksPage(page + 1))
  }

  /** The "page/total" indicator, counting pages from 1. */
  function IndicatorButton(page: nat, total: nat): Button {
    Button(Text.Decimal(page + 1) + "/" + Text.Decimal(total), PageInfo)
  }

  const BackButton: Button := Button("\U{2190} Back to Verify", OpenVerify)

  /** The navigation row: Previous when there is an earlier page, the
      indicator, and Next when there is a later page. */
  function NavRow(page: nat, total: nat): (row: Row)
    ensures |row| == (if page > 0 then 1 else 0) + 1 + (if page + 1 < total then 1 else 0)
    ensures IndicatorButton(page, total) in row
    ensures PreviousButton(page) in row <==> page > 0
    ensures NextButton(page) in row <==> page + 1 < total
    ensures page > 0 ==> row[0] == PreviousButton(page)
    ensures page + 1 < total ==> row[|row| - 1] == NextButton(page)
  {
    (if page > 0 then [PreviousButton(page)] else [])
    + [IndicatorButton(page, total)]
    + (if page + 1 < total then [NextButton(page)] else [])
  }

  /** The keyboard of page `page`: the bank rows, then the navigation row
      when there is more than one page, then "Back to Verify". */
  function Keyboard(list: seq<Institution>, page: nat): (rows: seq<Row>)
    ensures var banks := PageSlice(list, page);
            var n := (|banks| + 1) / 2;
            var nav := TotalPages(|list|) > 1;
            && |rows| == n + (if nav then 1 else 0) + 1
            && rows[..n] == BankRows(banks)
            && Flatten(rows[..n]) == BankButtons(banks)
            && (forall i :: 0 <= i < n ==> 1 <= |rows[i]| <= 2)
            && (nav ==> rows[n] == NavRow(page, TotalPages(|list|)))
            && rows[|rows| - 1] == [BackButton]
  {
    var total := TotalPages(|list|);
    var bankRows := BankRows(PageSlice(list, page));
    var rows := bankRows + (if total > 1 then [NavRow(page, total)] else []) + [[BackButton]];
    BankRowsLayout(PageSlice(list, page));
    assert rows[..|bankRows|] == bankRows;
    rows
  }

  /** What the picker shows: a failure notice when the list could not be
      fetched, a "no banks" notice for an empty list, otherwise the page with
      its keyboard and the "Page p of t (n banks total)" counts. */
  datatype Listing =
    | LoadFailed
    | NoBanks
    | Page(keyboard: seq<Row>, page: nat, totalPages: nat, bankCount: nat)

  function ShowBankSelection(institutions: Call<seq<Institution>>, page: nat): (r: Listing)
    ensures r.LoadFailed? <==> institutions.Threw?
    ensures r.NoBanks? <==> institutions.Returned? && |institutions.value| == 0
    ensures r.Page? ==>
              && institutions.Returned?
              && r.keyboard == Keyboard(institutions.value, page)
              && r.page == page
              && r.totalPages == TotalPages(|institutions.value|) >= 1
              && r.bankCount == |institutions.value|
  {
    match institutions
    case Threw => LoadFailed
    case Returned(list) =>
      if |list| == 0 then NoBanks
      else Page(Keyboard(list, page), page, TotalPages(|list|), |list|)
  }

  // ---------------------------------------------------------------------
  // Pages partition the list

  /** The institutions of pages `0 .. k - 1`, page after page. */
  function PagesBefore(list: seq<Institution>, k: nat): seq<Institution> {
    if k == 0 then [] else PagesBefore(list, k - 1) + PageSlice(list, k - 1)
  }

  /** The first `k` pages are the first `BanksPerPage * k` institutions, in
      order. */
  lemma {:induction false} PagesBeforeArePrefix(list: seq<Institution>, k: nat)
    ensures PagesBefore(list, k) == list[..Min(BanksPerPage * k, |list|)]
  {
    if k > 0 {
      PagesBeforeArePrefix(list, k - 1);
      var before := list[..Min(BanksPerPage * (k - 1), |list|)];
      var page := PageSlice(list, k - 1);
      if BanksPerPage * (k - 1) < |list| {
        assert before + page == list[..Min(BanksPerPage * k, |list|)];
      } else {
        assert page == [];
      }
    }
  }

  /** Pages `0 .. TotalPages - 1` together are the whole list, in order. */
  lemma PagesPartitionList(list: seq<Institution>)
    ensures PagesBefore(list, TotalPages(|list|)) == list
  {
    PagesBeforeArePrefix(list, TotalPages(|list|));
  }

  /** Every institution is on exactly one page: position `i` is entry
      `i % BanksPerPage` of page `i / BanksPerPage`, and no other page holds
      that position. */
  lemma PageOfPosition(list: seq<Institution>, i: nat, page: nat)
    requires i < |list|
    ensures i / BanksPerPage < TotalPages(|list|)
    ensures var s := PageSlice(list, i / BanksPerPage);
            i % BanksPerPage < |s| && s[i % BanksPerPage] == list[i]
    ensures page != i / BanksPerPage ==>
              !(BanksPerPage * page <= i < BanksPerPage * page + |PageSlice(list, page)|)
  {
  }
}
