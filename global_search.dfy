/**
 * The frontend's global search box: after the user types, the documents the
 * search endpoint returns are turned into at most three supplier entries (the
 * suppliers whose name contains the query, in first-seen order, with how many
 * of the returned documents each has) followed by at most ten document entries.
 */
module GlobalSearch {
  import opened Outcomes
  import opened Text
  import opened Calendar

  const MinQueryLength: nat := 2
  const MaxSuppliers: nat := 3
  const MaxDocuments: nat := 10

  // ---------------------------------------------------------------------------
  // Query length
  // ---------------------------------------------------------------------------

  /** `query.length`: the number of UTF-16 code units, two for a character outside the Basic Multilingual Plane. */
  function Utf16Length(s: string): (n: nat)
    ensures |s| <= n <= 2 * |s|
  {
    if |s| == 0 then 0
    else Utf16Length(s[..|s| - 1]) + (if s[|s| - 1] as int >= 0x10000 then 2 else 1)
  }

  /** For text inside the Basic Multilingual Plane the length is the number of characters. */
  lemma {:induction false} Utf16LengthOfBmp(s: string)
    requires forall i :: 0 <= i < |s| ==> s[i] as int < 0x10000
    ensures Utf16Length(s) == |s|
  {
    if |s| > 0 {
      Utf16LengthOfBmp(s[..|s| - 1]);
    }
  }

  /** A query is sent only once it is at least two code units long. */
  predicate IsSearchable(query: string) { Utf16Length(query) >= MinQueryLength }

  /** Two characters always make a searchable query; one character does only when it takes two code units. */
  lemma SearchableLengths(query: string)
    ensures |query| >= 2 ==> IsSearchable(query)
    ensures |query| == 0 ==> !IsSearchable(query)
    ensures |query| == 1 ==> (IsSearchable(query) <==> query[0] as int >= 0x10000)
  {
    if |query| == 1 {
      assert query[..0] == "";
    }
  }

  // ---------------------------------------------------------------------------
  // What the search endpoint returns
  // ---------------------------------------------------------------------------

  /** A document as the search endpoint returns it; a missing date is `None`. */
  datatype SearchDoc = SearchDoc(id: string, supplier: string, docNumber: string, date: Option<Date>)

  /** The response body: `{ data: [...] }`, a bare list, nothing, or some other object. */
  datatype Payload = Envelope(data: seq<SearchDoc>) | Bare(docs: seq<SearchDoc>) | NoBody | NotAList

  const NotAListMessage: string := "docs.forEach is not a function"

  /** `docsResponse.data?.data || docsResponse.data || []`; a body that is no list makes the next step throw. */
  function DocsOf(p: Payload): (r: Result<seq<SearchDoc>, string>)
    ensures r.Err? <==> p.NotAList?
    ensures p.Envelope? ==> r == Ok(p.data)
    ensures p.Bare? ==> r == Ok(p.docs)
    ensures p.NoBody? ==> r == Ok([])
  {
    match p
    case Envelope(data) => Ok(data)
    case Bare(docs) => Ok(docs)
    case NoBody => Ok([])
    case NotAList => Err(NotAListMessage)
  }

  // ---------------------------------------------------------------------------
  // Supplier aggregation: the specification
  // ---------------------------------------------------------------------------

  /** `d.supplier && d.supplier.toLowerCase().includes(query.toLowerCase())`. */
  predicate SupplierMatches(d: SearchDoc, query: string) {
    d.supplier != "" && ContainsIgnoringCase(d.supplier, query)
  }

  predicate Distinct(names: seq<string>) {
    forall i, j :: 0 <= i < j < |names| ==> names[i] != names[j]
  }

  /** The matching suppliers in the order their first document appears. */
  function SupplierOrder(docs: seq<SearchDoc>, query: string): (order: seq<string>)
  {
    if |docs| == 0 then []
    else
      var order := SupplierOrder(docs[..|docs| - 1], query);
      var d := docs[|docs| - 1];
      if SupplierMatches(d, query) && d.supplier !in order then order + [d.supplier] else order
  }

  /** The number of matching documents of supplier `name`. */
  function CountFor(docs: seq<SearchDoc>, query: string, name: string): nat
  {
    if |docs| == 0 then 0
    else
      var d := docs[|docs| - 1];
      CountFor(docs[..|docs| - 1], query, name) + (if SupplierMatches(d, query) && d.supplier == name then 1 else 0)
  }

  /** The number of matching documents. */
  function MatchCount(docs: seq<SearchDoc>, query: string): nat
  {
    if |docs| == 0 then 0
    else MatchCount(docs[..|docs| - 1], query) + (if SupplierMatches(docs[|docs| - 1], query) then 1 else 0)
  }

  /** The position of the first document of supplier `name`. */
  function FirstIndex(docs: seq<SearchDoc>, name: string): (r: Option<nat>)
    ensures r.Some? ==> r.value < |docs| && docs[r.value].supplier == name
                        && forall j :: 0 <= j < r.value ==> docs[j].supplier != name
    ensures r.None? ==> forall j :: 0 <= j < |docs| ==> docs[j].supplier != name
  {
    if |docs| == 0 then None
    else if docs[0].supplier == name then Some(0)
    else
      match FirstIndex(docs[1..], name)
      case None => None
      case Some(k) => Some(k + 1)
  }

  /** One entry of `suppliersMap`. */
  datatype SupplierEntry = SupplierEntry(name: string, count: nat, latestDate: Option<Date>)

  /** The date of the first document of supplier `name`, which is what the entry keeps as `latestDate`. */
  function FirstDate(docs: seq<SearchDoc>, name: string): Option<Date>
  {
    match FirstIndex(docs, name)
    case Some(k) => docs[k].date
    case None => None
  }

  /** `Array.from(suppliersMap.values())`. */
  function SupplierEntries(docs: seq<SearchDoc>, query: string): (es: seq<SupplierEntry>)
    ensures |es| == |SupplierOrder(docs, query)|
  {
    var order := SupplierOrder(docs, query);
    seq(|order|, k requires 0 <= k < |order| =>
      SupplierEntry(order[k], CountFor(docs, query, order[k]), FirstDate(docs, order[k])))
  }

  // ---------------------------------------------------------------------------
  // Supplier aggregation: what the specification means
  // ---------------------------------------------------------------------------

  /** Each supplier appears once, and exactly the suppliers of matching documents appear. */
  lemma {:induction false} SupplierOrderFacts(docs: seq<SearchDoc>, query: string)
    ensures Distinct(SupplierOrder(docs, query))
    ensures forall name :: name in SupplierOrder(docs, query) <==>
              exists i :: 0 <= i < |docs| && SupplierMatches(docs[i], query) && docs[i].supplier == name
  {
    if |docs| > 0 {
      var prefix := docs[..|docs| - 1];
      SupplierOrderFacts(prefix, query);
      forall name
        ensures name in SupplierOrder(docs, query) <==>
                exists i :: 0 <= i < |docs| && SupplierMatches(docs[i], query) && docs[i].supplier == name
      {
        if exists i :: 0 <= i < |docs| && SupplierMatches(docs[i], query) && docs[i].supplier == name {
          var i :| 0 <= i < |docs| && SupplierMatches(docs[i], query) && docs[i].supplier == name;
          if i < |docs| - 1 {
            assert prefix[i] == docs[i];
          }
        }
        if name in SupplierOrder(prefix, query) {
          var i :| 0 <= i < |prefix| && SupplierMatches(prefix[i], query) && prefix[i].supplier == name;
          assert docs[i] == prefix[i];
        }
      }
    }
  }

  /** A listed supplier has at least one document, and an unlisted name has none. */
  lemma {:induction false} CountForListed(docs: seq<SearchDoc>, query: string, name: string)
    ensures name in SupplierOrder(docs, query) <==> CountFor(docs, query, name) >= 1
  {
    if |docs| > 0 {
      CountForListed(docs[..|docs| - 1], query, name);
    }
  }

  function SumCounts(names: seq<string>, docs: seq<SearchDoc>, query: string): nat
  {
    if |names| == 0 then 0
    else SumCounts(names[..|names| - 1], docs, query) + CountFor(docs, query, names[|names| - 1])
  }

  /** One more document adds one to the sum over distinct names exactly when it matches and its supplier is among them. */
  lemma {:induction false} SumCountsExtend(names: seq<string>, docs: seq<SearchDoc>, d: SearchDoc, query: string)
    requires Distinct(names)
    ensures SumCounts(names, docs + [d], query)
            == SumCounts(names, docs, query) + (if SupplierMatches(d, query) && d.supplier in names then 1 else 0)
  {
    assert (docs + [d])[..|docs + [d]| - 1] == docs;
    if |names| > 0 {
      var init := names[..|names| - 1];
      assert Distinct(init);
      SumCountsExtend(init, docs, d, query);
      assert d.supplier in names <==> d.supplier in init || d.supplier == names[|names| - 1];
      assert names[|names| - 1] in init ==> false;
    }
  }

  /** `SumCounts` of a sequence with one more name. */
  lemma SumCountsAppend(names: seq<string>, name: string, docs: seq<SearchDoc>, query: string)
    ensures SumCounts(names + [name], docs, query) == SumCounts(names, docs, query) + CountFor(docs, query, name)
  {
    assert (names + [name])[..|names|] == names;
  }

  /** The supplier counts add up to the number of matching documents: every one is counted once. */
  lemma {:induction false} SupplierCountsAddUp(docs: seq<SearchDoc>, query: string)
    ensures SumCounts(SupplierOrder(docs, query), docs, query) == MatchCount(docs, query)
  {
    if |docs| > 0 {
      var prefix := docs[..|docs| - 1];
      var d := docs[|docs| - 1];
      assert docs == prefix + [d];
      var order := SupplierOrder(prefix, query);
      SupplierCountsAddUp(prefix, query);
      SupplierOrderFacts(prefix, query);
      SumCountsExtend(order, prefix, d, query);
      if SupplierMatches(d, query) && d.supplier !in order {
        SumCountsAppend(order, d.supplier, docs, query);
        CountForListed(prefix, query, d.supplier);
      }
    }
  }

  /** Adding a document keeps the first position of every supplier that already had one. */
  lemma {:induction false} FirstIndexExtend(docs: seq<SearchDoc>, d: SearchDoc, name: string)
    ensures FirstIndex(docs + [d], name) ==
              if FirstIndex(docs, name).Some? then FirstIndex(docs, name)
              else if d.supplier == name then Some(|docs|) else None
  {
    var all := docs + [d];
    if |docs| == 0 {
      assert all[1..] == [];
    } else {
      assert all[0] == docs[0];
      assert all[1..] == docs[1..] + [d];
      FirstIndexExtend(docs[1..], d, name);
    }
  }

  /** How the count and the first date of a supplier change when one more document is seen. */
  lemma OneMoreDocument(prefix: seq<SearchDoc>, d: SearchDoc, query: string, name: string)
    ensures FirstIndex(prefix, name).Some? ==>
              FirstIndex(prefix + [d], name).Some? && FirstDate(prefix + [d], name) == FirstDate(prefix, name)
    ensures FirstIndex(prefix, name).None? && d.supplier == name ==>
              FirstIndex(prefix + [d], name).Some? && FirstDate(prefix + [d], name) == d.date
    ensures CountFor(prefix + [d], query, name)
            == CountFor(prefix, query, name) + (if SupplierMatches(d, query) && d.supplier == name then 1 else 0)
  {
    assert (prefix + [d])[..|prefix|] == prefix;
    FirstIndexExtend(prefix, d, name);
    if FirstIndex(prefix, name).Some? {
      assert (prefix + [d])[FirstIndex(prefix, name).value] == prefix[FirstIndex(prefix, name).value];
    } else if d.supplier == name {
      assert (prefix + [d])[|prefix|] == d;
    }
  }

  // ---------------------------------------------------------------------------
  // Supplier aggregation: the loop
  // ---------------------------------------------------------------------------

  /**
   * `suppliersMap` after the first documents, key order included: a new matching supplier
   * is appended with the document's date, and every matching document adds one to its
   * supplier's count.
   */
  function MapAfter(docs: seq<SearchDoc>, query: string): (m: (seq<string>, map<string, SupplierEntry>))
  {
    if |docs| == 0 then ([], map[])
    else
      var (order, table) := MapAfter(docs[..|docs| - 1], query);
      var d := docs[|docs| - 1];
      if !SupplierMatches(d, query) then (order, table)
      else if d.supplier in table then
        (order, table[d.supplier := table[d.supplier].(count := table[d.supplier].count + 1)])
      else (order + [d.supplier], table[d.supplier := SupplierEntry(d.supplier, 1, d.date)])
  }

  /** The map's key order is the listed order, and its keys are the listed suppliers. */
  lemma {:induction false} MapAfterKeys(docs: seq<SearchDoc>, query: string)
    ensures MapAfter(docs, query).0 == SupplierOrder(docs, query)
    ensures forall name :: name in MapAfter(docs, query).1 <==> name in SupplierOrder(docs, query)
  {
    if |docs| > 0 {
      MapAfterKeys(docs[..|docs| - 1], query);
    }
  }

  /** One more document keeps a map entry right if it was right before. */
  lemma EntryStep(prefix: seq<SearchDoc>, d: SearchDoc, query: string, name: string)
    requires name in MapAfter(prefix, query).1 <==> name in SupplierOrder(prefix, query)
    requires name in MapAfter(prefix, query).1 ==>
               MapAfter(prefix, query).1[name] == SupplierEntry(name, CountFor(prefix, query, name), FirstDate(prefix, name))
    ensures name in MapAfter(prefix + [d], query).1 ==>
              MapAfter(prefix + [d], query).1[name]
              == SupplierEntry(name, CountFor(prefix + [d], query, name), FirstDate(prefix + [d], name))
  {
    assert (prefix + [d])[..|prefix|] == prefix;
    OneMoreDocument(prefix, d, query, name);
    SupplierOrderFacts(prefix, query);
    if name in MapAfter(prefix, query).1 {
      var k :| 0 <= k < |prefix| && SupplierMatches(prefix[k], query) && prefix[k].supplier == name;
      assert FirstIndex(prefix, name).Some?;
    } else if name in MapAfter(prefix + [d], query).1 {
      assert d.supplier == name && SupplierMatches(d, query);
      assert forall j :: 0 <= j < |prefix| ==> prefix[j].supplier != name;
      CountForListed(prefix, query, name);
    }
  }

  /** Each entry of the map holds the number of its supplier's matching documents and the date of its first document. */
  lemma {:induction false} MapAfterMeaning(docs: seq<SearchDoc>, query: string)
    ensures forall name :: name in MapAfter(docs, query).1 ==>
              MapAfter(docs, query).1[name] == SupplierEntry(name, CountFor(docs, query, name), FirstDate(docs, name))
  {
    if |docs| > 0 {
      var prefix := docs[..|docs| - 1];
      var d := docs[|docs| - 1];
      assert docs == prefix + [d];
      MapAfterMeaning(prefix, query);
      MapAfterKeys(prefix, query);
      forall name {
        EntryStep(prefix, d, query, name);
      }
    }
  }

  /** The `docs.forEach` loop filling `suppliersMap`, then `Array.from(suppliersMap.values())`. */
  method AggregateSuppliers(docs: seq<SearchDoc>, query: string) returns (entries: seq<SupplierEntry>)
    ensures entries == SupplierEntries(docs, query)
  {
    var order: seq<string> := [];
    var table: map<string, SupplierEntry> := map[];
    for i := 0 to |docs|
      invariant (order, table) == MapAfter(docs[..i], query)
    {
      assert docs[..i + 1][..i] == docs[..i];
      ghost var before := table;
      var d := docs[i];
      if SupplierMatches(d, query) {
        var name := d.supplier;
        if name !in table {
          order := order + [name];
          table := table[name := SupplierEntry(name, 0, d.date)];
          table := table[name := table[name].(count := table[name].count + 1)];
          assert table == before[name := SupplierEntry(name, 1, d.date)];
        } else {
          table := table[name := table[name].(count := table[name].count + 1)];
        }
      }
      assert docs[..i + 1][i] == d;
    }
    assert docs[..|docs|] == docs;
    MapAfterKeys(docs, query);
    MapAfterMeaning(docs, query);
    entries := seq(|order|, k requires 0 <= k < |order| => table[order[k]]);
  }

  // ---------------------------------------------------------------------------
  // Display helpers
  // ---------------------------------------------------------------------------

  /** `encodeURIComponent` keeps these characters as they are. */
  predicate IsUnreserved(c: char) {
    IsAsciiLetter(c) || IsDigit(c) || c in "-_.!~*'()"
  }

  predicate IsUpperHex(c: char) { IsDigit(c) || 'A' <= c <= 'F' }

  function HexDigit(n: nat): (c: char)
    requires n < 16
    ensures IsUpperHex(c)
  {
    "0123456789ABCDEF"[n]
  }

  /** The UTF-8 encoding of a character. */
  function Utf8(c: char): (bytes: seq<nat>)
    ensures 1 <= |bytes| <= 4
    ensures forall k :: 0 <= k < |bytes| ==> bytes[k] < 256
    ensures |bytes| == 1 <==> (c as int) < 0x80
  {
    var cp := c as int;
    if cp < 0x80 then [cp]
    else if cp < 0x800 then [0xC0 + cp / 64, 0x80 + cp % 64]
    else if cp < 0x10000 then [0xE0 + cp / 4096, 0x80 + (cp / 64) % 64, 0x80 + cp % 64]
    else [0xF0 + cp / 262144, 0x80 + (cp / 4096) % 64, 0x80 + (cp / 64) % 64, 0x80 + cp % 64]
  }

  /** `%XX` for each byte. */
  function PercentBytes(bytes: seq<nat>): (s: string)
    requires forall k :: 0 <= k < |bytes| ==> bytes[k] < 256
    ensures |s| == 3 * |bytes|
    ensures forall k :: 0 <= k < |s| ==> (if k % 3 == 0 then s[k] == '%' else IsUpperHex(s[k]))
  {
    if |bytes| == 0 then ""
    else
      var rest := PercentBytes(bytes[1..]);
      var head := ['%', HexDigit(bytes[0] / 16), HexDigit(bytes[0] % 16)];
      assert forall k :: 3 <= k < |head + rest| ==> (head + rest)[k] == rest[k - 3];
      head + rest
  }

  /** Only unreserved characters, `%` and upper-case hex digits. */
  predicate IsEncoded(s: string) {
    forall k :: 0 <= k < |s| ==> IsUnreserved(s[k]) || s[k] == '%' || IsUpperHex(s[k])
  }

  /** One character's part of `encodeURIComponent`. */
  function EncodeChar(c: char): (r: string)
    ensures IsEncoded(r) && '/' !in r && |r| >= 1
    ensures IsUnreserved(c) ==> r == [c]
  {
    if IsUnreserved(c) then [c] else PercentBytes(Utf8(c))
  }

  lemma EncodedAppend(a: string, b: string)
    requires IsEncoded(a) && IsEncoded(b)
    ensures IsEncoded(a + b)
  {
    assert forall k :: |a| <= k < |a + b| ==> (a + b)[k] == b[k - |a|];
  }

  /** The encoding of `s` extended by one character keeps the facts `EncodeUriComponent` promises. */
  lemma EncodeOneMore(s: string, c: char, init: string, tail: string)
    requires IsEncoded(init) && '/' !in init && |init| >= |s|
    requires (forall k :: 0 <= k < |s| ==> IsUnreserved(s[k])) ==> init == s
    requires tail == EncodeChar(c)
    ensures IsEncoded(init + tail) && '/' !in init + tail && |init + tail| >= |s + [c]|
    ensures (forall k :: 0 <= k < |s + [c]| ==> IsUnreserved((s + [c])[k])) ==> init + tail == s + [c]
  {
    EncodedAppend(init, tail);
    if forall k :: 0 <= k < |s + [c]| ==> IsUnreserved((s + [c])[k]) {
      assert forall k :: 0 <= k < |s| ==> (s + [c])[k] == s[k];
      assert IsUnreserved((s + [c])[|s|]);
    }
  }

  /** `encodeURIComponent`: unreserved characters stay, every other character becomes the `%XX` escapes of its UTF-8 bytes. */
  function EncodeUriComponent(s: string): (r: string)
    ensures IsEncoded(r) && '/' !in r
    ensures (forall k :: 0 <= k < |s| ==> IsUnreserved(s[k])) ==> r == s
    ensures |r| >= |s|
  {
    if |s| == 0 then ""
    else
      var init := EncodeUriComponent(s[..|s| - 1]);
      var tail := EncodeChar(s[|s| - 1]);
      EncodeOneMore(s[..|s| - 1], s[|s| - 1], init, tail);
      assert s == s[..|s| - 1] + [s[|s| - 1]];
      init + tail
  }

  /**
   * `toLocaleDateString('it-IT', { day: '2-digit', month: '2-digit', year: 'numeric' })`:
   * `DD/MM/YYYY`.
   */
  function ItalianDate(d: Date): (s: string)
    requires IsCalendarDate(d)
    ensures |s| >= 7 && s[2] == '/' && s[5] == '/'
    ensures AllDigits(s[..2]) && AllDigits(s[3..5]) && AllDigits(s[6..])
    ensures DigitsValue(s[..2]) == d.day && DigitsValue(s[3..5]) == d.month && DigitsValue(s[6..]) == d.year
  {
    ValueOfDigits(d.day, 2);
    ValueOfDigits(d.month, 2);
    var s := Digits(d.day, 2) + "/" + Digits(d.month, 2) + "/" + DecimalString(d.year);
    assert s[..2] == Digits(d.day, 2);
    assert s[3..5] == Digits(d.month, 2);
    assert s[6..] == DecimalString(d.year);
    s
  }

  // ---------------------------------------------------------------------------
  // Results
  // ---------------------------------------------------------------------------

  datatype Kind = SupplierKind | DocumentKind

  /** One line of the dropdown. */
  datatype SearchResult = SearchResult(id: string, kind: Kind, title: string, subtitle: string, url: string)

  const SuppliersPath: string := "/suppliers/"
  const DocumentsPath: string := "/documents"

  function SupplierResult(e: SupplierEntry): (r: SearchResult)
    ensures r.kind == SupplierKind && r.id == e.name && r.title == e.name
    ensures r.url == SuppliersPath + EncodeUriComponent(e.name)
  {
    SearchResult(e.name, SupplierKind, e.name, DecimalString(e.count) + " documenti", SuppliersPath + EncodeUriComponent(e.name))
  }

  /** What `toLocaleDateString` prints for a `Date` that holds no valid time. */
  const InvalidDateText: string := "Invalid Date"

  /**
   * A document line; the subtitle is the Italian date, empty without a date, and
   * `Invalid Date` for fields that make no calendar date.
   */
  function DocumentResult(d: SearchDoc): (r: SearchResult)
    ensures r.kind == DocumentKind && r.id == d.id && r.url == DocumentsPath
    ensures r.title == d.supplier + " - " + d.docNumber
    ensures d.date.None? ==> r.subtitle == ""
    ensures d.date.Some? && IsCalendarDate(d.date.value) ==> r.subtitle == ItalianDate(d.date.value)
    ensures d.date.Some? && !IsCalendarDate(d.date.value) ==> r.subtitle == InvalidDateText
  {
    var subtitle := match d.date
      case Some(date) => if IsCalendarDate(date) then ItalianDate(date) else InvalidDateText
      case None => "";
    SearchResult(d.id, DocumentKind, d.supplier + " - " + d.docNumber, subtitle, DocumentsPath)
  }

  function Take<T>(s: seq<T>, n: nat): (r: seq<T>)
    ensures |r| == if |s| <= n then |s| else n
    ensures forall k :: 0 <= k < |r| ==> r[k] == s[k]
  {
    if |s| <= n then s else s[..n]
  }

  /** `suppliers`: one entry per supplier of `suppliersMap`, in its order. */
  function SupplierResults(entries: seq<SupplierEntry>): (r: seq<SearchResult>)
    ensures |r| == |entries|
    ensures forall k :: 0 <= k < |r| ==> r[k] == SupplierResult(entries[k])
  {
    seq(|entries|, k requires 0 <= k < |entries| => SupplierResult(entries[k]))
  }

  /** `documents`: one entry per returned document, in order. */
  function DocumentResults(docs: seq<SearchDoc>): (r: seq<SearchResult>)
    ensures |r| == |docs|
    ensures forall k :: 0 <= k < |r| ==> r[k] == DocumentResult(docs[k])
  {
    seq(|docs|, k requires 0 <= k < |docs| => DocumentResult(docs[k]))
  }

  /** What `[...a.slice(0, m), ...b.slice(0, n)]` holds at each position. */
  lemma TakeBoth<T>(a: seq<T>, m: nat, b: seq<T>, n: nat)
    ensures var r := Take(a, m) + Take(b, n);
            var s := if |a| <= m then |a| else m;
            && |r| == s + (if |b| <= n then |b| else n)
            && (forall k :: 0 <= k < s ==> r[k] == a[k])
            && (forall k :: s <= k < |r| ==> r[k] == b[k - s])
  {
  }

  /** `[...suppliers.slice(0, 3), ...documents.slice(0, 10)]` over the returned documents. */
  function SearchResults(docs: seq<SearchDoc>, query: string): (r: seq<SearchResult>)
  {
    Take(SupplierResults(SupplierEntries(docs, query)), MaxSuppliers) + Take(DocumentResults(docs), MaxDocuments)
  }

  /** How many supplier lines the dropdown shows: at most three. */
  function SupplierSlots(docs: seq<SearchDoc>, query: string): (n: nat)
    ensures n <= MaxSuppliers && n <= |SupplierOrder(docs, query)|
    ensures n == MaxSuppliers || n == |SupplierOrder(docs, query)|
  {
    var m := |SupplierOrder(docs, query)|;
    if m <= MaxSuppliers then m else MaxSuppliers
  }

  /** The dropdown holds up to three supplier lines followed by up to ten document lines. */
  lemma {:induction false} SearchResultsLength(docs: seq<SearchDoc>, query: string)
    ensures |SearchResults(docs, query)|
            == SupplierSlots(docs, query) + (if |docs| <= MaxDocuments then |docs| else MaxDocuments)
    ensures |SearchResults(docs, query)| <= MaxSuppliers + MaxDocuments
  {
    var a := SupplierResults(SupplierEntries(docs, query));
    var b := DocumentResults(docs);
    TakeBoth(a, MaxSuppliers, b, MaxDocuments);
  }

  /** `line` is the supplier line for `name`: its document count and a link to its page. */
  ghost predicate SupplierLine(line: SearchResult, docs: seq<SearchDoc>, query: string, name: string)
  {
    && line.kind == SupplierKind && line.id == name && line.title == name
    && line.subtitle == DecimalString(CountFor(docs, query, name)) + " documenti"
    && line.url == SuppliersPath + EncodeUriComponent(name)
  }

  /**
   * The first lines are the first matching suppliers in order of first appearance, each
   * with its document count and a link to its page.
   */
  lemma {:induction false} SearchResultsSuppliers(docs: seq<SearchDoc>, query: string)
    ensures SupplierSlots(docs, query) <= |SearchResults(docs, query)|
    ensures forall k :: 0 <= k < SupplierSlots(docs, query) ==>
              SupplierLine(SearchResults(docs, query)[k], docs, query, SupplierOrder(docs, query)[k])
  {
    SearchResultsLength(docs, query);
    forall k: nat | k < SupplierSlots(docs, query) {
      SupplierLineAt(docs, query, k);
    }
  }

  lemma SupplierLineAt(docs: seq<SearchDoc>, query: string, k: nat)
    requires k < SupplierSlots(docs, query)
    ensures k < |SearchResults(docs, query)| && SupplierLine(SearchResults(docs, query)[k], docs, query, SupplierOrder(docs, query)[k])
  {
    var order := SupplierOrder(docs, query);
    var entries := SupplierEntries(docs, query);
    var a := SupplierResults(entries);
    var b := DocumentResults(docs);
    var r := SearchResults(docs, query);
    assert |a| == |order|;
    TakeBoth(a, MaxSuppliers, b, MaxDocuments);
    assert r[k] == a[k];
    assert r[k] == SupplierResult(entries[k]);
    assert entries[k] == SupplierEntry(order[k], CountFor(docs, query, order[k]), FirstDate(docs, order[k]));
  }

  /** After the supplier lines come the first ten returned documents, in order. */
  lemma {:induction false} SearchResultsDocuments(docs: seq<SearchDoc>, query: string)
    ensures forall k :: SupplierSlots(docs, query) <= k < |SearchResults(docs, query)| ==>
              SearchResults(docs, query)[k] == DocumentResult(docs[k - SupplierSlots(docs, query)])
  {
    forall k: nat | SupplierSlots(docs, query) <= k < |SearchResults(docs, query)| {
      DocumentLineAt(docs, query, k);
    }
  }

  lemma DocumentLineAt(docs: seq<SearchDoc>, query: string, k: nat)
    requires SupplierSlots(docs, query) <= k < |SearchResults(docs, query)|
    ensures k - SupplierSlots(docs, query) < |docs|
    ensures SearchResults(docs, query)[k] == DocumentResult(docs[k - SupplierSlots(docs, query)])
  {
    var a := SupplierResults(SupplierEntries(docs, query));
    var b := DocumentResults(docs);
    var r := SearchResults(docs, query);
    var s := SupplierSlots(docs, query);
    var front, back := Take(a, MaxSuppliers), Take(b, MaxDocuments);
    assert |a| == |SupplierOrder(docs, query)|;
    assert r == front + back && |front| == s;
    assert r[k] == back[k - s];
    assert back[k - s] == b[k - s];
  }

  /** No supplier is listed twice. */
  lemma {:induction false} SearchResultsDistinctSuppliers(docs: seq<SearchDoc>, query: string)
    ensures forall k, j :: 0 <= k < j < SupplierSlots(docs, query) ==>
              SearchResults(docs, query)[k].id != SearchResults(docs, query)[j].id
  {
    SearchResultsSuppliers(docs, query);
    SupplierOrderFacts(docs, query);
  }

  /** Every listed supplier contains the query, whatever its case, and has at least one document. */
  lemma ListedSuppliersMatch(docs: seq<SearchDoc>, query: string)
    ensures forall name :: name in SupplierOrder(docs, query) ==>
              name != "" && ContainsIgnoringCase(name, query) && CountFor(docs, query, name) >= 1
  {
    SupplierOrderFacts(docs, query);
    forall name | name in SupplierOrder(docs, query)
      ensures name != "" && ContainsIgnoringCase(name, query) && CountFor(docs, query, name) >= 1
    {
      var i :| 0 <= i < |docs| && SupplierMatches(docs[i], query) && docs[i].supplier == name;
      CountForListed(docs, query, name);
    }
  }

  // ---------------------------------------------------------------------------
  // The component's state
  // ---------------------------------------------------------------------------

  class SearchBox {
    var query: string
    var results: seq<SearchResult>
    var loading: bool
    var open: bool

    constructor ()
      ensures query == "" && results == [] && !loading && !open
    {
      query, results, loading, open := "", [], false, false;
    }

    /** Typing into the box. */
    method SetQuery(text: string)
      modifies this
      ensures query == text && results == old(results) && loading == old(loading) && open == old(open)
    {
      query := text;
    }

    /**
     * The debounced effect for the current query. A query shorter than two code units
     * clears the results and closes the dropdown without a request. Otherwise the dropdown
     * opens, the endpoint's answer (`response`, or the request's error) becomes the results,
     * an error of any kind leaves no results, and loading ends either way.
     */
    method RunSearch(response: Result<Payload, string>)
      modifies this
      ensures query == old(query)
      ensures !IsSearchable(query) ==> results == [] && !open && loading == old(loading)
      ensures IsSearchable(query) ==> open && !loading
      ensures IsSearchable(query) ==>
                results == (if response.Ok? && DocsOf(response.value).Ok?
                            then SearchResults(DocsOf(response.value).value, query) else [])
    {
      if Utf16Length(query) >= MinQueryLength {
        loading := true;
        open := true;
        if response.Err? {
          results := [];
        } else {
          var docs := DocsOf(response.value);
          if docs.Err? {
            results := [];
          } else {
            var combined := BuildResults(docs.value, query);
            results := combined;
          }
        }
        loading := false;
      } else {
        results := [];
        open := false;
      }
    }

    /** Choosing an entry navigates to its link, then empties the box and closes the dropdown. */
    method HandleResultClick(url: string) returns (navigateTo: string)
      modifies this
      ensures navigateTo == url
      ensures query == "" && results == [] && !open && loading == old(loading)
    {
      navigateTo := url;
      query := "";
      results := [];
      open := false;
    }

    /** Focusing the box reopens the dropdown when the query is long enough; otherwise nothing changes. */
    method Focus()
      modifies this
      ensures open == (old(open) || IsSearchable(query))
      ensures query == old(query) && results == old(results) && loading == old(loading)
    {
      if Utf16Length(query) >= MinQueryLength {
        open := true;
      }
    }

    /** A mouse press outside the box closes the dropdown; one inside changes nothing. */
    method MouseDown(outside: bool)
      modifies this
      ensures open == (old(open) && !outside)
      ensures query == old(query) && results == old(results) && loading == old(loading)
    {
      if outside {
        open := false;
      }
    }
  }

  /** Building the suppliers and documents lists and combining them, as the effect does. */
  method BuildResults(docs: seq<SearchDoc>, query: string) returns (combined: seq<SearchResult>)
    ensures combined == SearchResults(docs, query)
  {
    var entries := AggregateSuppliers(docs, query);
    var suppliers := SupplierResults(entries);
    var documents := DocumentResults(docs);
    combined := Take(suppliers, MaxSuppliers) + Take(documents, MaxDocuments);
  }
}
