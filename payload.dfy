/**
 * Turning an extracted case and the operator's choices into the pre-filled
 * Google Form request: the submit-button guard (`validateForm`), the agent
 * note that is put in front of the customer's verbatim, the
 * "Assign to me" guard, and the ordered query parameters the two URL
 * builders append.
 *
 * The query is kept as the ordered list of (key, value) pairs appended to
 * the `URLSearchParams` buffer; its percent-encoding is not modelled.
 */
module Payload {

  import opened Wrappers
  import opened Strings
  import opened Dates
  import opened Extraction

  // ---------------------------------------------------------------------
  // The operator's input and validateForm
  // ---------------------------------------------------------------------

  /** The modal's form controls. A radio group is the value of its checked
      button, or None when none is checked; the selects are their value
      ("" for "Choose..."). */
  datatype OperatorInput = OperatorInput(
    lob: Option<string>,
    brand: string,
    custType: Option<string>,
    product: string,
    lang: Option<string>,
    bancid: string,
    agentNote: string)

  /** The form after a reset: nothing checked, nothing typed. */
  const BlankInput: OperatorInput := OperatorInput(None, "", None, "", None, "", "")

  /** `validateForm`: the submit button and its dropdown are enabled
      exactly when this holds. */
  predicate FormValid(f: OperatorInput)
  {
    && f.lob.Some? && |f.brand| > 0 && f.custType.Some? && |f.product| > 0
    && f.lang.Some? && 1 <= |Trim(f.bancid)| <= 9
  }

  /** The six selections as the URL builders read them. */
  datatype Selections = Selections(lob: string, brand: string, custType: string,
                                   product: string, lang: string, bancid: string)

  /** Reading the selections. None stands for the TypeError thrown by
      `.value` on the null result of `querySelector(':checked')` when a
      radio group has nothing checked. */
  function ReadSelections(f: OperatorInput): (r: Option<Selections>)
    ensures r.None? <==> f.lob.None? || f.custType.None? || f.lang.None?
    ensures r.Some? ==> IsTrimmed(r.value.bancid)
  {
    TrimIdempotent(f.bancid);
    if f.lob.None? || f.custType.None? || f.lang.None? then None
    else Some(Selections(f.lob.value, f.brand, f.custType.value, f.product,
                         f.lang.value, Trim(f.bancid)))
  }

  /** Submit is enabled exactly when the selections can be read, brand and
      product are chosen and the trimmed BAN/CID has one to nine
      characters. */
  lemma FormValidIff(f: OperatorInput)
    ensures FormValid(f) <==>
              && ReadSelections(f).Some?
              && |ReadSelections(f).value.brand| > 0
              && |ReadSelections(f).value.product| > 0
              && 1 <= |ReadSelections(f).value.bancid| <= 9
  {
  }

  /** A blank form never enables submit. */
  lemma BlankInputInvalid()
    ensures !FormValid(BlankInput)
  {
  }

  // ---------------------------------------------------------------------
  // buildVerbatimWithAgentNote
  // ---------------------------------------------------------------------

  const NotePrefix: string := "[NOTE FOR AGENT: "

  /** The verbatim with the trimmed agent note in front of it, or the
      verbatim alone when the note is blank. */
  function VerbatimWithAgentNote(note: string, verbatim: string): (r: string)
    ensures |Trim(note)| == 0 ==> r == verbatim
    ensures |Trim(note)| > 0 ==> |r| > |NotePrefix| && r[..|NotePrefix|] == NotePrefix
    ensures |r| >= |verbatim| && r[|r| - |verbatim|..] == verbatim
  {
    var n := Trim(note);
    if |n| > 0 then NotedParts(n, verbatim); NotePrefix + n + "] " + verbatim else verbatim
  }

  lemma NotedParts(n: string, verbatim: string)
    ensures var r := NotePrefix + n + "] " + verbatim;
      && |r| > |NotePrefix| && r[..|NotePrefix|] == NotePrefix
      && r[|r| - |verbatim|..] == verbatim
  {
  }

  /** `buildVerbatimWithAgentNote`, which extracts the verbatim from the
      page afresh. */
  method BuildVerbatimWithAgentNote(page: Page, note: string) returns (v: string)
    ensures v == VerbatimWithAgentNote(note, SourceData(page).verbatim)
  {
    var agentNoteText := Trim(note);
    var freshData := ExtractSourceData(page);
    var verbatim := freshData.verbatim;
    if |agentNoteText| > 0 {
      return NotePrefix + agentNoteText + "] " + verbatim;
    }
    return verbatim;
  }

  /** Reading a note back: the text between the prefix and the first `]`,
      and what follows `] `. */
  function SplitAgentNote(s: string): Option<(string, string)>
  {
    if |s| < |NotePrefix| || s[..|NotePrefix|] != NotePrefix then None
    else
      match IndexFrom(s, "]", |NotePrefix|)
      case None => None
      case Some(i) =>
        if i + 1 < |s| && s[i + 1] == ' ' then Some((s[|NotePrefix|..i], s[i + 2..]))
        else None
  }

  /** A non-empty note without `]` is read back from the combined text. */
  lemma SplitNotePrefixed(n: string, verbatim: string)
    requires |n| > 0 && forall k :: 0 <= k < |n| ==> n[k] != ']'
    ensures SplitAgentNote(NotePrefix + n + "] " + verbatim) == Some((n, verbatim))
  {
    var s := NotePrefix + n + "] " + verbatim;
    var i := |NotePrefix| + |n|;
    assert s[..|NotePrefix|] == NotePrefix;
    assert s[i] == ']' && s[i + 1] == ' ';
    assert OccursAt(s, "]", i);
    forall k | |NotePrefix| <= k < i
      ensures !OccursAt(s, "]", k)
    {
      assert s[k] == n[k - |NotePrefix|];
      assert s[k..k + 1][0] == s[k];
    }
    assert IndexFrom(s, "]", |NotePrefix|) == Some(i);
    assert s[|NotePrefix|..i] == n;
    assert s[i + 2..] == verbatim;
  }

  /** A non-blank note that has no `]` in it can be read back, with the
      verbatim, from the combined text. */
  lemma AgentNoteRoundTrip(note: string, verbatim: string)
    requires |Trim(note)| > 0
    requires forall k :: 0 <= k < |Trim(note)| ==> Trim(note)[k] != ']'
    ensures SplitAgentNote(VerbatimWithAgentNote(note, verbatim)) == Some((Trim(note), verbatim))
  {
    SplitNotePrefixed(Trim(note), verbatim);
  }

  // ---------------------------------------------------------------------
  // The query parameters
  // ---------------------------------------------------------------------

  /** The fields of the Google Form the bookmarklet pre-fills. */
  datatype Field =
    | Year | Month | Day | Hour | Minute
    | Lob | Brand | CustType | Product | Lang | Bancid
    | Name | PrimaryPhone | PreferredPhone | Verbatim

  /** The query key each field is sent under. */
  function EntryId(f: Field): string
  {
    match f
    case Year => "entry.1882987299_year"
    case Month => "entry.1882987299_month"
    case Day => "entry.1882987299_day"
    case Hour => "entry.1882987299_hour"
    case Minute => "entry.1882987299_minute"
    case Lob => "entry.506082014"
    case Brand => "entry.104012616"
    case CustType => "entry.1228494129"
    case Product => "entry.1098890156"
    case Lang => "entry.500460836"
    case Bancid => "entry.615216667"
    case Name => "entry.1133516513"
    case PrimaryPhone => "entry.504696174"
    case PreferredPhone => "entry.1161771354"
    case Verbatim => "entry.961402602"
  }

  /** The fields in the order the URL builders append them. */
  const FieldOrder: seq<Field> := [
    Year, Month, Day, Hour, Minute,
    Lob, Brand, CustType, Product, Lang, Bancid,
    Name, PrimaryPhone, PreferredPhone, Verbatim]

  /** A field's position in `FieldOrder`. */
  function Rank(f: Field): (n: nat)
    ensures n < |FieldOrder| && FieldOrder[n] == f
  {
    match f
    case Year => 0
    case Month => 1
    case Day => 2
    case Hour => 3
    case Minute => 4
    case Lob => 5
    case Brand => 6
    case CustType => 7
    case Product => 8
    case Lang => 9
    case Bancid => 10
    case Name => 11
    case PrimaryPhone => 12
    case PreferredPhone => 13
    case Verbatim => 14
  }

  /** No two fields share a query key, so the query can be read back by
      key. */
  lemma EntryIdsDistinct()
    ensures forall i, j :: 0 <= i < j < |FieldOrder| ==>
              EntryId(FieldOrder[i]) != EntryId(FieldOrder[j])
  {
  }

  const FormBase: string :=
    "https://docs.google.com/forms/d/e/1FAIpQLSfJ0AQaptO3wIaa09kJhHGULvApaiAdQRnTJzCq7CzwmP3SKw/viewform"

  /** One `params.append(EntryId(field), value)`. */
  datatype Param = Param(field: Field, value: string)

  /** The request the form is opened with: the base address and the
      query, before encoding. */
  datatype FormRequest = FormRequest(base: string, query: seq<Param>)

  /** `URLSearchParams.get`: the value of the first pair for that field. */
  function Lookup(q: seq<Param>, field: Field): Option<string>
  {
    if |q| == 0 then None
    else if q[0].field == field then Some(q[0].value)
    else Lookup(q[1..], field)
  }

  /** `get` finds nothing exactly when no pair has the field, and what it
      finds is one of the pairs. */
  lemma {:induction false} LookupFinds(q: seq<Param>, field: Field)
    ensures Lookup(q, field).None? <==> forall i :: 0 <= i < |q| ==> q[i].field != field
    ensures Lookup(q, field).Some? ==> Param(field, Lookup(q, field).value) in q
  {
    if |q| > 0 && q[0].field != field {
      LookupFinds(q[1..], field);
      assert forall i :: 1 <= i < |q| ==> q[i] == q[1..][i - 1];
    }
  }

  /** `"first last".trim()`. */
  function FullName(rec: ExtractedRecord): string
  {
    Trim(rec.firstName + " " + rec.lastName)
  }

  /** What the builders send of an extracted record: its received date,
      the full name, the two phone numbers and the verbatim with the agent
      note. */
  datatype Filled = Filled(date: Option<DateParts>, fullName: string, primaryPhone: string,
                           preferredPhone: string, verbatim: string)

  function FilledFrom(rec: ExtractedRecord, verbatimWithNote: string): Filled
  {
    Filled(rec.receivedDate, FullName(rec), rec.primaryPhone, rec.preferredPhone, verbatimWithNote)
  }

  function NonEmpty(s: string): Option<string>
  {
    if |s| == 0 then None else Some(s)
  }

  /** A reference description of the query: for each field, in order, the
      value that is sent for it, or None when it is left out. */
  datatype Slot = Slot(field: Field, value: Option<string>)

  function DateSlots(date: Option<DateParts>): seq<Slot>
  {
    match date
    case None =>
      [Slot(Year, None), Slot(Month, None), Slot(Day, None), Slot(Hour, None), Slot(Minute, None)]
    case Some(d) =>
      [Slot(Year, Some(NatToString(d.year))), Slot(Month, Some(ShowMonth(d.month))),
       Slot(Day, Some(NatToString(d.day))), Slot(Hour, Some(NatToString(d.hour))),
       Slot(Minute, Some(NatToString(d.minute)))]
  }

  function SelectionSlots(s: Selections): seq<Slot>
  {
    [Slot(Lob, Some(s.lob)), Slot(Brand, Some(s.brand)), Slot(CustType, Some(s.custType)),
     Slot(Product, Some(s.product)), Slot(Lang, Some(s.lang)), Slot(Bancid, Some(s.bancid))]
  }

  function DetailSlots(x: Filled): seq<Slot>
  {
    [Slot(Name, NonEmpty(x.fullName)), Slot(PrimaryPhone, NonEmpty(x.primaryPhone)),
     Slot(PreferredPhone, NonEmpty(x.preferredPhone)), Slot(Verbatim, NonEmpty(x.verbatim))]
  }

  function Slots(x: Filled, s: Selections): seq<Slot>
  {
    DateSlots(x.date) + SelectionSlots(s) + DetailSlots(x)
  }

  /** The pairs of the slots that have a value, in slot order. */
  function Present(slots: seq<Slot>): (q: seq<Param>)
    ensures |q| <= |slots|
  {
    if |slots| == 0 then []
    else
      (match slots[0].value
       case Some(v) => [Param(slots[0].field, v)]
       case None => [])
      + Present(slots[1..])
  }

  /** The query both URL builders produce for the extracted values and
      the selections. */
  function Query(x: Filled, s: Selections): seq<Param>
  {
    Present(Slots(x, s))
  }

  // Facts about Present

  lemma {:induction false} PresentAppend(a: seq<Slot>, b: seq<Slot>)
    ensures Present(a + b) == Present(a) + Present(b)
  {
    if |a| == 0 {
      assert a + b == b;
    } else {
      assert (a + b)[1..] == a[1..] + b;
      PresentAppend(a[1..], b);
    }
  }

  /** Every pair sent comes from a slot with that field and value. */
  lemma {:induction false} PresentFromSlots(slots: seq<Slot>)
    ensures forall p :: p in Present(slots) ==> Slot(p.field, Some(p.value)) in slots
  {
    if |slots| > 0 {
      PresentFromSlots(slots[1..]);
      var head := if slots[0].value.Some? then [Param(slots[0].field, slots[0].value.value)] else [];
      assert Present(slots) == head + Present(slots[1..]);
    }
  }

  /** Slots listed in strictly increasing field order. */
  predicate Ascending(slots: seq<Slot>)
  {
    forall i, j :: 0 <= i < j < |slots| ==> Rank(slots[i].field) < Rank(slots[j].field)
  }

  /** With ascending slots, looking a field up in the query finds exactly
      the value of its slot. */
  lemma {:induction false} PresentLookup(slots: seq<Slot>, j: nat)
    requires Ascending(slots) && j < |slots|
    ensures Lookup(Present(slots), slots[j].field) == slots[j].value
  {
    var rest := slots[1..];
    var q := Present(slots);
    if j == 0 {
      if slots[0].value.None? {
        assert q == Present(rest);
        PresentFromSlots(rest);
        forall i | 0 <= i < |q|
          ensures q[i].field != slots[0].field
        {
          assert Slot(q[i].field, Some(q[i].value)) in rest;
        }
        LookupFinds(q, slots[0].field);
      }
    } else {
      PresentLookup(rest, j - 1);
      assert rest[j - 1] == slots[j];
      if slots[0].value.Some? {
        assert q[1..] == Present(rest);
      } else {
        assert q == Present(rest);
      }
    }
  }

  /** The query of ascending slots is itself in ascending field order. */
  lemma {:induction false} PresentAscending(slots: seq<Slot>)
    requires Ascending(slots)
    ensures forall i, j :: 0 <= i < j < |Present(slots)| ==>
              Rank(Present(slots)[i].field) < Rank(Present(slots)[j].field)
  {
    if |slots| > 0 {
      var q := Present(slots);
      var qr := Present(slots[1..]);
      PresentAscending(slots[1..]);
      PresentFromSlots(slots[1..]);
      if slots[0].value.Some? {
        assert q == [q[0]] + qr;
        forall j | 0 < j < |q|
          ensures Rank(q[0].field) < Rank(q[j].field)
        {
          assert q[j] == qr[j - 1];
          assert Slot(q[j].field, Some(q[j].value)) in slots[1..];
        }
      } else {
        assert q == qr;
      }
    }
  }

  // Facts about the query

  /** The five date pairs, in the order they are appended. */
  function DateParams(d: DateParts): seq<Param>
  {
    [Param(Year, NatToString(d.year)), Param(Month, ShowMonth(d.month)),
     Param(Day, NatToString(d.day)), Param(Hour, NatToString(d.hour)),
     Param(Minute, NatToString(d.minute))]
  }

  /** The six selection pairs, in the order they are appended. */
  function SelectionParams(s: Selections): seq<Param>
  {
    [Param(Lob, s.lob), Param(Brand, s.brand), Param(CustType, s.custType),
     Param(Product, s.product), Param(Lang, s.lang), Param(Bancid, s.bancid)]
  }

  /** A pair that is appended only when its value is not empty. */
  function IfNotEmpty(field: Field, value: string): seq<Param>
  {
    if |value| == 0 then [] else [Param(field, value)]
  }

  lemma PresentDateSlots(date: Option<DateParts>)
    ensures date.None? ==> Present(DateSlots(date)) == []
    ensures date.Some? ==> Present(DateSlots(date)) == DateParams(date.value)
  {
    var sl := DateSlots(date);
    if date.None? {
      assert Present(sl[4..]) == [];
      assert Present(sl[3..]) == Present(sl[4..]);
      assert Present(sl[2..]) == Present(sl[3..]);
      assert Present(sl[1..]) == Present(sl[2..]);
      assert Present(sl) == Present(sl[1..]);
    } else {
      var d := date.value;
      assert Present(sl[4..]) == [Param(Minute, NatToString(d.minute))];
      assert Present(sl[3..]) == [Param(Hour, NatToString(d.hour))] + Present(sl[4..]);
      assert Present(sl[2..]) == [Param(Day, NatToString(d.day))] + Present(sl[3..]);
      assert Present(sl[1..]) == [Param(Month, ShowMonth(d.month))] + Present(sl[2..]);
      assert Present(sl) == [Param(Year, NatToString(d.year))] + Present(sl[1..]);
    }
  }

  lemma PresentSelectionSlots(s: Selections)
    ensures Present(SelectionSlots(s)) == SelectionParams(s)
  {
    var sl := SelectionSlots(s);
    assert Present(sl[5..]) == [Param(Bancid, s.bancid)];
    assert Present(sl[4..]) == [Param(Lang, s.lang)] + Present(sl[5..]);
    assert Present(sl[3..]) == [Param(Product, s.product)] + Present(sl[4..]);
    assert Present(sl[2..]) == [Param(CustType, s.custType)] + Present(sl[3..]);
    assert Present(sl[1..]) == [Param(Brand, s.brand)] + Present(sl[2..]);
    assert Present(sl) == [Param(Lob, s.lob)] + Present(sl[1..]);
  }

  lemma PresentDetailSlots(x: Filled)
    ensures Present(DetailSlots(x)) ==
              IfNotEmpty(Name, x.fullName) + IfNotEmpty(PrimaryPhone, x.primaryPhone) +
              IfNotEmpty(PreferredPhone, x.preferredPhone) + IfNotEmpty(Verbatim, x.verbatim)
  {
    var sl := DetailSlots(x);
    assert Present(sl[3..]) == IfNotEmpty(Verbatim, x.verbatim);
    assert Present(sl[2..]) == IfNotEmpty(PreferredPhone, x.preferredPhone) + Present(sl[3..]);
    assert Present(sl[1..]) == IfNotEmpty(PrimaryPhone, x.primaryPhone) + Present(sl[2..]);
    assert Present(sl) == IfNotEmpty(Name, x.fullName) + Present(sl[1..]);
  }

  lemma DateSlotsRanks(date: Option<DateParts>)
    ensures |DateSlots(date)| == 5
    ensures forall i :: 0 <= i < 5 ==> Rank(DateSlots(date)[i].field) == i
  {
  }

  lemma SelectionSlotsRanks(s: Selections)
    ensures |SelectionSlots(s)| == 6
    ensures forall i :: 0 <= i < 6 ==> Rank(SelectionSlots(s)[i].field) == 5 + i
  {
  }

  lemma DetailSlotsRanks(x: Filled)
    ensures |DetailSlots(x)| == 4
    ensures forall i :: 0 <= i < 4 ==> Rank(DetailSlots(x)[i].field) == 11 + i
  {
  }

  /** The slots list every field once, in `FieldOrder`. */
  lemma SlotsInFieldOrder(x: Filled, s: Selections)
    ensures |Slots(x, s)| == |FieldOrder|
    ensures forall i :: 0 <= i < |FieldOrder| ==> Slots(x, s)[i].field == FieldOrder[i]
    ensures Ascending(Slots(x, s))
  {
    var ds := DateSlots(x.date);
    var ss := SelectionSlots(s);
    var dt := DetailSlots(x);
    DateSlotsRanks(x.date);
    SelectionSlotsRanks(s);
    DetailSlotsRanks(x);
    var slots := Slots(x, s);
    forall i | 0 <= i < |slots|
      ensures Rank(slots[i].field) == i
    {
      if i < 5 {
        assert slots[i] == ds[i];
      } else if i < 11 {
        assert slots[i] == ss[i - 5];
      } else {
        assert slots[i] == dt[i - 11];
      }
    }
  }

  /** Looking up the field at position `i` of `FieldOrder` finds the
      value of the slot at that position. */
  lemma QueryLookup(x: Filled, s: Selections, i: nat)
    requires i < |FieldOrder|
    ensures Lookup(Query(x, s), FieldOrder[i]) == Slots(x, s)[i].value
  {
    SlotsInFieldOrder(x, s);
    PresentLookup(Slots(x, s), i);
  }

  /** The five date fields are sent exactly when a received date was
      found, with the date's numbers. */
  lemma QueryDateContents(x: Filled, s: Selections)
    ensures var q := Query(x, s);
      && (x.date.None? ==>
            && Lookup(q, Year).None? && Lookup(q, Month).None? && Lookup(q, Day).None?
            && Lookup(q, Hour).None? && Lookup(q, Minute).None?)
      && (x.date.Some? ==>
            var d := x.date.value;
            && Lookup(q, Year) == Some(NatToString(d.year))
            && Lookup(q, Month) == Some(ShowMonth(d.month))
            && Lookup(q, Day) == Some(NatToString(d.day))
            && Lookup(q, Hour) == Some(NatToString(d.hour))
            && Lookup(q, Minute) == Some(NatToString(d.minute)))
  {
    QueryLookup(x, s, 0);
    QueryLookup(x, s, 1);
    QueryLookup(x, s, 2);
    QueryLookup(x, s, 3);
    QueryLookup(x, s, 4);
  }

  /** The six selections are always sent. */
  lemma QuerySelectionContents(x: Filled, s: Selections)
    ensures var q := Query(x, s);
      && Lookup(q, Lob) == Some(s.lob)
      && Lookup(q, Brand) == Some(s.brand)
      && Lookup(q, CustType) == Some(s.custType)
      && Lookup(q, Product) == Some(s.product)
      && Lookup(q, Lang) == Some(s.lang)
      && Lookup(q, Bancid) == Some(s.bancid)
  {
    QueryLookup(x, s, 5);
    QueryLookup(x, s, 6);
    QueryLookup(x, s, 7);
    QueryLookup(x, s, 8);
    QueryLookup(x, s, 9);
    QueryLookup(x, s, 10);
  }

  /** The name, the two phone numbers and the verbatim are sent only when
      they are not empty. */
  lemma QueryDetailContents(x: Filled, s: Selections)
    ensures var q := Query(x, s);
      && Lookup(q, Name) == NonEmpty(x.fullName)
      && Lookup(q, PrimaryPhone) == NonEmpty(x.primaryPhone)
      && Lookup(q, PreferredPhone) == NonEmpty(x.preferredPhone)
      && Lookup(q, Verbatim) == NonEmpty(x.verbatim)
  {
    QueryLookup(x, s, 11);
    QueryLookup(x, s, 12);
    QueryLookup(x, s, 13);
    QueryLookup(x, s, 14);
  }

  /** The query sends each field at most once, in `FieldOrder`. */
  lemma QueryOrder(x: Filled, s: Selections)
    ensures var q := Query(x, s);
      forall i, j :: 0 <= i < j < |q| ==> Rank(q[i].field) < Rank(q[j].field)
  {
    SlotsInFieldOrder(x, s);
    PresentAscending(Slots(x, s));
  }

  lemma QueryParts(x: Filled, s: Selections)
    ensures Query(x, s) ==
              Present(DateSlots(x.date)) + SelectionParams(s) +
              IfNotEmpty(Name, x.fullName) + IfNotEmpty(PrimaryPhone, x.primaryPhone) +
              IfNotEmpty(PreferredPhone, x.preferredPhone) + IfNotEmpty(Verbatim, x.verbatim)
  {
    PresentAppend(DateSlots(x.date) + SelectionSlots(s), DetailSlots(x));
    PresentAppend(DateSlots(x.date), SelectionSlots(s));
    PresentSelectionSlots(s);
    PresentDetailSlots(x);
  }

  /** When a received date was found, its five pairs open the query and
      the six selections follow them; without one, the selections open
      it. */
  lemma QueryStartsWithDate(x: Filled, s: Selections)
    ensures var q := Query(x, s);
      && (x.date.Some? ==>
            |q| >= 11 && q[..5] == DateParams(x.date.value) && q[5..11] == SelectionParams(s))
      && (x.date.None? ==> |q| >= 6 && q[..6] == SelectionParams(s))
  {
    QueryParts(x, s);
    PresentDateSlots(x.date);
  }

  /** The `params.append` sequence both URL builders run. */
  method AppendParams(x: Filled, s: Selections) returns (params: seq<Param>)
    ensures params == Query(x, s)
  {
    params := [];
    if x.date.Some? {
      var d := x.date.value;
      params := params + [Param(Year, NatToString(d.year))];
      params := params + [Param(Month, ShowMonth(d.month))];
      params := params + [Param(Day, NatToString(d.day))];
      params := params + [Param(Hour, NatToString(d.hour))];
      params := params + [Param(Minute, NatToString(d.minute))];
    }
    PresentDateSlots(x.date);
    assert params == Present(DateSlots(x.date));
    params := params + [Param(Lob, s.lob)];
    params := params + [Param(Brand, s.brand)];
    params := params + [Param(CustType, s.custType)];
    params := params + [Param(Product, s.product)];
    params := params + [Param(Lang, s.lang)];
    params := params + [Param(Bancid, s.bancid)];
    var fixed := params;
    assert fixed == Present(DateSlots(x.date)) + SelectionParams(s);
    if |x.fullName| > 0 {
      params := params + [Param(Name, x.fullName)];
    }
    var named := params;
    assert named == fixed + IfNotEmpty(Name, x.fullName);
    if |x.primaryPhone| > 0 {
      params := params + [Param(PrimaryPhone, x.primaryPhone)];
    }
    var primary := params;
    assert primary == named + IfNotEmpty(PrimaryPhone, x.primaryPhone);
    if |x.preferredPhone| > 0 {
      params := params + [Param(PreferredPhone, x.preferredPhone)];
    }
    var preferred := params;
    assert preferred == primary + IfNotEmpty(PreferredPhone, x.preferredPhone);
    if |x.verbatim| > 0 {
      params := params + [Param(Verbatim, x.verbatim)];
    }
    assert params == preferred + IfNotEmpty(Verbatim, x.verbatim);
    QueryParts(x, s);
  }

  // ---------------------------------------------------------------------
  // checkAssignToMeButton
  // ---------------------------------------------------------------------

  /** An `Assigned to` label whose value element has non-blank text. */
  predicate HasAssignee(el: Labelled)
  {
    AssignedValue(el).Some? && |Trim(AssignedValue(el).value)| > 0
  }

  /** The operator must first take the case: no `Assigned to` label has a
      non-blank value and the "Assign to me" button is on the page. */
  predicate NeedsAssignment(page: Page)
  {
    (forall k :: 0 <= k < |page.subtitles| ==> !HasAssignee(page.subtitles[k])) && page.assignButton
  }

  /** `checkAssignToMeButton`. */
  method CheckAssignToMeButton(page: Page) returns (warn: bool)
    ensures warn == NeedsAssignment(page)
  {
    for i := 0 to |page.subtitles|
      invariant forall k :: 0 <= k < i ==> !HasAssignee(page.subtitles[k])
    {
      var el := page.subtitles[i];
      if el.text == AssignedToLabel {
        if el.box.Some? {
          var valueEl := el.box.value.value;
          if valueEl.Some? && |Trim(valueEl.value)| > 0 {
            return false;
          }
        }
      }
    }
    return page.assignButton;
  }

  /** A page that shows a TID (`getTID` is not empty) never asks the
      operator to assign the case first. */
  lemma TidSuppressesAssignWarning(page: Page)
    requires |Tid(page.subtitles)| > 0
    ensures !NeedsAssignment(page)
  {
    var k := TidSource(page.subtitles);
    assert HasAssignee(page.subtitles[k]);
  }

  /** The label the TID comes from. */
  lemma {:induction false} TidSource(subtitles: seq<Labelled>) returns (k: nat)
    requires |Tid(subtitles)| > 0
    ensures k < |subtitles| && AssignedValue(subtitles[k]).Some?
    ensures Tid(subtitles) == Trim(AssignedValue(subtitles[k]).value)
  {
    if AssignedValue(subtitles[0]).Some? {
      k := 0;
    } else {
      var m := TidSource(subtitles[1..]);
      k := m + 1;
      assert subtitles[1..][m] == subtitles[k];
    }
  }

  // ---------------------------------------------------------------------
  // generateFormURL and the copy-URL option
  // ---------------------------------------------------------------------

  /** What a URL builder does: warn that the case must be assigned first,
      hand over the form request (opened in a new tab, or copied), or stop
      on the TypeError of an unchecked radio group. */
  datatype Submission = AssignFirst | Sent(request: FormRequest) | TypeError

  /** The request a page and a form give when the selections can be
      read. */
  function RequestFor(page: Page, s: Selections, note: string): FormRequest
  {
    var rec := SourceData(page);
    FormRequest(FormBase, Query(FilledFrom(rec, VerbatimWithAgentNote(note, rec.verbatim)), s))
  }

  /** `generateFormURL`, given the freshly extracted record of the page. */
  method GenerateFormUrl(page: Page, f: OperatorInput) returns (r: Submission)
    ensures NeedsAssignment(page) ==> r == AssignFirst
    ensures !NeedsAssignment(page) && ReadSelections(f).None? ==> r == TypeError
    ensures !NeedsAssignment(page) && ReadSelections(f).Some? ==>
              r == Sent(RequestFor(page, ReadSelections(f).value, f.agentNote))
  {
    var warn := CheckAssignToMeButton(page);
    if warn {
      return AssignFirst;
    }
    r := BuildRequest(page, f);
  }

  /** The copy-URL option: the same request, without the assignment
      check. */
  method CopyFormUrl(page: Page, f: OperatorInput) returns (r: Submission)
    ensures r != AssignFirst
    ensures ReadSelections(f).None? ==> r == TypeError
    ensures ReadSelections(f).Some? ==> r == Sent(RequestFor(page, ReadSelections(f).value, f.agentNote))
  {
    r := BuildRequest(page, f);
  }

  /** The part the two builders share: read the selections, append the
      parameters. */
  method BuildRequest(page: Page, f: OperatorInput) returns (r: Submission)
    ensures ReadSelections(f).None? ==> r == TypeError
    ensures ReadSelections(f).Some? ==> r == Sent(RequestFor(page, ReadSelections(f).value, f.agentNote))
  {
    var freshData := ExtractSourceData(page);
    var selections := ReadSelections(f);
    if selections.None? {
      return TypeError;
    }
    var verbatimWithNote := BuildVerbatimWithAgentNote(page, f.agentNote);
    var fullName := FullName(freshData);
    var values := Filled(freshData.receivedDate, fullName, freshData.primaryPhone,
                         freshData.preferredPhone, verbatimWithNote);
    var params := AppendParams(values, selections.value);
    return Sent(FormRequest(FormBase, params));
  }

  /** A form that passes `validateForm` never hits the TypeError, and the
      BAN/CID it sends is trimmed and one to nine characters long,
      whatever was extracted from the page. */
  lemma ValidFormSends(x: Filled, f: OperatorInput)
    requires FormValid(f)
    ensures ReadSelections(f).Some?
    ensures var q := Query(x, ReadSelections(f).value);
      && Lookup(q, Bancid) == Some(Trim(f.bancid))
      && 1 <= |Trim(f.bancid)| <= 9
      && Lookup(q, Brand) == Some(f.brand) && |f.brand| > 0
      && Lookup(q, Product) == Some(f.product) && |f.product| > 0
  {
    QuerySelectionContents(x, ReadSelections(f).value);
  }

}
