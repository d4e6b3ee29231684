/**
 * Reading a case ("lead") off the case-management page.
 *
 * The page is given as the lists of elements the bookmarklet's selectors
 * return, in document order, each reduced to the text the code reads from
 * it. Every extraction is total: a missing element or label gives the
 * field's empty value.
 */
module Extraction {

  import opened Wrappers
  import opened Strings
  import opened Dates

  // ---------------------------------------------------------------------
  // The page
  // ---------------------------------------------------------------------

  /** The nearest `.MuiBox-root` around a label, reduced to the text of the
      value element the code looks up inside it (None: no such element). */
  datatype Box = Box(value: Option<string>)

  /** A label element: its `textContent` and its enclosing box, if any. */
  datatype Labelled = Labelled(text: string, box: Option<Box>)

  /** A `.MuiTimelineItem-root`: its text and the text of its
      `.MuiTypography-caption`, if it has one. */
  datatype TimelineItem = TimelineItem(text: string, caption: Option<string>)

  datatype Page = Page(
    /** `h1.MuiTypography-h1` */
    headings: seq<string>,
    /** `.MuiTypography-body2`, with the `.MuiTypography-body1` of each box */
    labels: seq<Labelled>,
    /** `.MuiTypography-subtitle1`, with the `.MuiTypography-h3` of each box */
    subtitles: seq<Labelled>,
    /** `.MuiTimelineItem-root` */
    timeline: seq<TimelineItem>,
    /** an "Assign to me" button is on the page */
    assignButton: bool,
    /** the "Change Status" button is on the page, visible and enabled */
    changeStatusAvailable: bool)

  // ---------------------------------------------------------------------
  // getLeadNumber
  // ---------------------------------------------------------------------

  const LeadPrefix: string := "Lead #"

  /** `/Lead #([A-Z0-9]+)/` matches at position `i` of `t`. */
  predicate LeadAt(t: string, i: nat)
  {
    OccursAt(t, LeadPrefix, i) && i + |LeadPrefix| < |t| && IsUpperAlnum(t[i + |LeadPrefix|])
  }

  function LeadFrom(t: string, from: nat): (r: Option<nat>)
    decreases |t| - from
    ensures r.Some? ==> from <= r.value && LeadAt(t, r.value)
    ensures r.Some? ==> forall k :: from <= k < r.value ==> !LeadAt(t, k)
    ensures r.None? ==> forall k :: from <= k ==> !LeadAt(t, k)
  {
    if from + |LeadPrefix| > |t| then None
    else if LeadAt(t, from) then Some(from)
    else LeadFrom(t, from + 1)
  }

  /** `text.match(/Lead #([A-Z0-9]+)/)`, group 1. */
  function LeadToken(t: string): (r: Option<string>)
    ensures r.Some? ==> r.value != [] && forall p :: 0 <= p < |r.value| ==> IsUpperAlnum(r.value[p])
  {
    match LeadFrom(t, 0)
    case None => None
    case Some(i) => Some(Take(t[i + |LeadPrefix|..], UpperAlnum).value.token)
  }

  /** What the match delivers: nothing when `Lead #` is never followed by
      an upper-case letter or digit; otherwise the maximal run of them
      right after the leftmost `Lead #` that is. */
  lemma LeadTokenIsLeftmostMatch(t: string)
    ensures LeadToken(t).None? <==> forall i :: !LeadAt(t, i)
    ensures LeadToken(t).Some? ==> exists i: nat ::
              && LeadAt(t, i) && (forall k :: 0 <= k < i ==> !LeadAt(t, k))
              && OccursAt(t, LeadToken(t).value, i + |LeadPrefix|)
              && (i + |LeadPrefix| + |LeadToken(t).value| == |t| ||
                  !IsUpperAlnum(t[i + |LeadPrefix| + |LeadToken(t).value|]))
  {
    if LeadFrom(t, 0).Some? {
      var i := LeadFrom(t, 0).value;
      RunAt(t, i + |LeadPrefix|, Take(t[i + |LeadPrefix|..], UpperAlnum).value);
    }
  }

  /** A run taken from the suffix of `t` at `start` occurs at `start` and
      ends where `t` ends or at a character outside the run's class. */
  lemma RunAt(t: string, start: nat, run: Scan)
    requires start <= |t| && Take(t[start..], UpperAlnum) == Some(run)
    ensures OccursAt(t, run.token, start)
    ensures start + |run.token| == |t| || !IsUpperAlnum(t[start + |run.token|])
  {
    var rest := t[start..];
    assert rest == run.token + run.rest;
    assert t[start..start + |run.token|] == rest[..|run.token|];
    if start + |run.token| < |t| {
      assert t[start + |run.token|] == run.rest[0];
    }
  }

  /** The `includes('Lead #')` test in front of the match only skips
      headings the match would fail on anyway. */
  lemma IncludesGuardRedundant(text: string)
    requires !Includes(text, LeadPrefix)
    ensures LeadToken(text).None?
  {
    IncludesIff(text, LeadPrefix);
    forall i: nat ensures !LeadAt(text, i) {
      assert !OccursAt(text, LeadPrefix, i);
    }
  }

  /** What `find` yields for the first text that yields something. */
  function FirstFound(texts: seq<string>, find: string -> Option<string>): Option<string>
  {
    if |texts| == 0 then None
    else match find(texts[0])
         case Some(v) => Some(v)
         case None => FirstFound(texts[1..], find)
  }

  lemma {:induction false} FirstFoundNoneIff(texts: seq<string>, find: string -> Option<string>)
    ensures FirstFound(texts, find).None? <==> forall k :: 0 <= k < |texts| ==> find(texts[k]).None?
  {
    if |texts| > 0 {
      FirstFoundNoneIff(texts[1..], find);
      if FirstFound(texts, find).None? {
        forall k | 0 < k < |texts| ensures find(texts[k]).None? {
          assert texts[k] == texts[1..][k - 1];
        }
      }
    }
  }

  lemma {:induction false} FirstFoundSource(texts: seq<string>, find: string -> Option<string>)
    returns (k: nat)
    requires FirstFound(texts, find).Some?
    ensures k < |texts| && find(texts[k]) == FirstFound(texts, find)
    ensures forall j :: 0 <= j < k ==> find(texts[j]).None?
  {
    if find(texts[0]).Some? {
      k := 0;
    } else {
      var m := FirstFoundSource(texts[1..], find);
      k := m + 1;
      assert texts[k] == texts[1..][m];
      forall j | 0 < j < k ensures find(texts[j]).None? {
        assert texts[j] == texts[1..][j - 1];
      }
    }
  }

  /** The lead number of the first heading that yields one; "" if none. */
  function LeadNumber(headings: seq<string>): string
  {
    match FirstFound(headings, LeadToken)
    case Some(lead) => lead
    case None => ""
  }

  /** `getLeadNumber`. */
  method GetLeadNumber(headings: seq<string>) returns (lead: string)
    ensures lead == LeadNumber(headings)
  {
    for i := 0 to |headings|
      invariant FirstFound(headings[i..], LeadToken) == FirstFound(headings, LeadToken)
    {
      assert headings[i..][1..] == headings[i + 1..];
      var text := headings[i];
      if Includes(text, LeadPrefix) {
        var found := LeadToken(text);
        if found.Some? {
          return found.value;
        }
      } else {
        IncludesGuardRedundant(text);
      }
    }
    return "";
  }

  /** `getLeadNumber` returns "" exactly when no heading contains a
      match. */
  lemma LeadNumberEmptyIff(headings: seq<string>)
    ensures |LeadNumber(headings)| == 0 <==>
            forall k :: 0 <= k < |headings| ==> LeadToken(headings[k]).None?
  {
    FirstFoundNoneIff(headings, LeadToken);
    if FirstFound(headings, LeadToken).Some? {
      var k := FirstFoundSource(headings, LeadToken);
    }
  }

  /** Otherwise it is the token of the first heading that contains a
      match; headings that contain `Lead #` without a match are
      skipped. */
  lemma LeadNumberSource(headings: seq<string>) returns (k: nat)
    requires |LeadNumber(headings)| > 0
    ensures k < |headings| && LeadToken(headings[k]) == Some(LeadNumber(headings))
    ensures forall j :: 0 <= j < k ==> LeadToken(headings[j]).None?
  {
    k := FirstFoundSource(headings, LeadToken);
  }

  // ---------------------------------------------------------------------
  // getTID
  // ---------------------------------------------------------------------

  const AssignedToLabel: string := "Assigned to"

  /** The text of the value element next to an exact `Assigned to` label. */
  function AssignedValue(el: Labelled): Option<string>
  {
    if el.text == AssignedToLabel && el.box.Some? then el.box.value.value else None
  }

  /** The trimmed value next to the first `Assigned to` label that has one. */
  function Tid(subtitles: seq<Labelled>): string
  {
    if |subtitles| == 0 then ""
    else match AssignedValue(subtitles[0])
         case Some(v) => Trim(v)
         case None => Tid(subtitles[1..])
  }

  /** `getTID`: the operator's own identifier from the "Assigned to" box. */
  method GetTid(subtitles: seq<Labelled>) returns (tid: string)
    ensures tid == Tid(subtitles)
  {
    for i := 0 to |subtitles|
      invariant Tid(subtitles[i..]) == Tid(subtitles)
    {
      assert subtitles[i..][1..] == subtitles[i + 1..];
      var el := subtitles[i];
      if el.text == AssignedToLabel {
        if el.box.Some? {
          var valueEl := el.box.value.value;
          if valueEl.Some? {
            return Trim(valueEl.value);
          }
        }
      }
    }
    return "";
  }

  // ---------------------------------------------------------------------
  // getTextByLabel
  // ---------------------------------------------------------------------

  /** The element's text contains one of the label variants. */
  predicate MentionsAny(text: string, variants: seq<string>)
  {
    exists j :: 0 <= j < |variants| && Includes(text, variants[j])
  }

  /** A label element the lookup stops at: it mentions a variant and its
      box has a value element. */
  predicate Qualifies(el: Labelled, variants: seq<string>)
  {
    MentionsAny(el.text, variants) && el.box.Some? && el.box.value.value.Some?
  }

  /** The trimmed value of the first qualifying label element; "" if none. */
  function TextByLabel(elements: seq<Labelled>, variants: seq<string>): string
  {
    if |elements| == 0 then ""
    else if Qualifies(elements[0], variants) then Trim(elements[0].box.value.value.value)
    else TextByLabel(elements[1..], variants)
  }

  /** `getTextByLabel(...labelTexts)`. */
  method GetTextByLabel(elements: seq<Labelled>, variants: seq<string>) returns (text: string)
    ensures text == TextByLabel(elements, variants)
  {
    for i := 0 to |elements|
      invariant TextByLabel(elements[i..], variants) == TextByLabel(elements, variants)
    {
      assert elements[i..][1..] == elements[i + 1..];
      var el := elements[i];
      for j := 0 to |variants|
        invariant el.box.Some? && el.box.value.value.Some? ==>
                  forall q :: 0 <= q < j ==> !Includes(el.text, variants[q])
      {
        if Includes(el.text, variants[j]) {
          if el.box.Some? {
            var valueEl := el.box.value.value;
            if valueEl.Some? {
              return Trim(valueEl.value);
            }
          }
        }
      }
    }
    return "";
  }

  lemma {:induction false} TextByLabelNone(elements: seq<Labelled>, variants: seq<string>)
    requires forall k :: 0 <= k < |elements| ==> !Qualifies(elements[k], variants)
    ensures TextByLabel(elements, variants) == ""
  {
    if |elements| > 0 {
      var tail := elements[1..];
      assert forall k :: 0 <= k < |tail| ==> tail[k] == elements[k + 1];
      TextByLabelNone(tail, variants);
    }
  }

  lemma {:induction false} TextByLabelFirst(elements: seq<Labelled>, variants: seq<string>, k: nat)
    requires k < |elements| && Qualifies(elements[k], variants)
    requires forall j :: 0 <= j < k ==> !Qualifies(elements[j], variants)
    ensures TextByLabel(elements, variants) == Trim(elements[k].box.value.value.value)
  {
    if k > 0 {
      var tail := elements[1..];
      assert forall j :: 0 <= j < k - 1 ==> tail[j] == elements[j + 1];
      TextByLabelFirst(tail, variants, k - 1);
    }
  }

  lemma {:induction false} TextByLabelTrimmed(elements: seq<Labelled>, variants: seq<string>)
    ensures Trim(TextByLabel(elements, variants)) == TextByLabel(elements, variants)
  {
    if |elements| > 0 {
      if Qualifies(elements[0], variants) {
        TrimIdempotent(elements[0].box.value.value.value);
      } else {
        TextByLabelTrimmed(elements[1..], variants);
      }
    }
  }

  /** What `getTextByLabel` returns: the trimmed value of the first label
      element, in document order, that mentions a variant and has a box
      with a value element, and "" when there is none. */
  lemma TextByLabelIsFirstQualifying(elements: seq<Labelled>, variants: seq<string>)
    ensures (forall k :: 0 <= k < |elements| ==> !Qualifies(elements[k], variants)) ==>
            TextByLabel(elements, variants) == ""
    ensures forall k: nat ::
              (k < |elements| && Qualifies(elements[k], variants) &&
               (forall j :: 0 <= j < k ==> !Qualifies(elements[j], variants))) ==>
              TextByLabel(elements, variants) == Trim(elements[k].box.value.value.value)
    ensures Trim(TextByLabel(elements, variants)) == TextByLabel(elements, variants)
  {
    if forall k :: 0 <= k < |elements| ==> !Qualifies(elements[k], variants) {
      TextByLabelNone(elements, variants);
    }
    forall k: nat | k < |elements| && Qualifies(elements[k], variants) &&
                    (forall j :: 0 <= j < k ==> !Qualifies(elements[j], variants))
      ensures TextByLabel(elements, variants) == Trim(elements[k].box.value.value.value)
    {
      TextByLabelFirst(elements, variants, k);
    }
    TextByLabelTrimmed(elements, variants);
  }

  // ---------------------------------------------------------------------
  // cleanPhone
  // ---------------------------------------------------------------------

  /** The last `n` characters of `s`, or all of it when it is shorter:
      `s.slice(-n)` for a positive `n` (`slice(-0)` would be the whole
      string). */
  function LastN(s: string, n: nat): (r: string)
    requires n > 0
    ensures |r| == if |s| <= n then |s| else n
    ensures s == s[..|s| - |r|] + r
  {
    if |s| <= n then s else s[|s| - n..]
  }

  /** `cleanPhone`: the digits of `phone`, of which at most the last ten
      are kept; shorter numbers are not padded. */
  function CleanPhone(phone: string): (r: string)
    ensures |phone| == 0 ==> |r| == 0
    ensures AllDigits(r) && |r| <= 10
    ensures |r| == if |Digits(phone)| <= 10 then |Digits(phone)| else 10
    ensures Digits(phone) == Digits(phone)[..|Digits(phone)| - |r|] + r
  {
    if |phone| == 0 then "" else LastN(Digits(phone), 10)
  }

  /** Cleaning a cleaned number changes nothing. */
  lemma CleanPhoneIdempotent(phone: string)
    ensures CleanPhone(CleanPhone(phone)) == CleanPhone(phone)
  {
    DigitsOfDigits(CleanPhone(phone));
  }

  /** Whatever precedes a number of ten digits (a country code, brackets,
      dashes) is dropped, and the ten digits are kept. */
  lemma CleanPhoneDropsPrefix(prefix: string, number: string)
    requires |Digits(number)| == 10
    ensures CleanPhone(prefix + number) == Digits(number)
  {
    DigitsAppend(prefix, number);
    var d := Digits(prefix + number);
    assert d[|d| - 10..] == Digits(number);
  }

  /** A number of at most ten digits keeps all its digits, in order, and
      is not padded. */
  lemma CleanPhoneKeepsShortNumber(phone: string)
    requires |Digits(phone)| <= 10
    ensures CleanPhone(phone) == Digits(phone)
  {
    if |phone| == 0 {
      assert |Digits(phone)| == 0;
    }
  }

  // ---------------------------------------------------------------------
  // getReceivedDate
  // ---------------------------------------------------------------------

  const NewLeadMarker: string := "New lead:"

  /** The parse of the caption of the first `New lead:` timeline item that
      has one; null when there is no such item. */
  function ReceivedDate(items: seq<TimelineItem>): Option<DateParts>
  {
    if |items| == 0 then None
    else if IsDated(items[0]) then ParseDateString(Trim(items[0].caption.value))
    else ReceivedDate(items[1..])
  }

  /** A `New lead:` timeline item with a caption element. */
  predicate IsDated(item: TimelineItem)
  {
    Includes(item.text, NewLeadMarker) && item.caption.Some?
  }

  /** Whether `k` is the first dated item. */
  predicate FirstDated(items: seq<TimelineItem>, k: nat)
  {
    k < |items| && IsDated(items[k]) && forall j :: 0 <= j < k ==> !IsDated(items[j])
  }

  lemma {:induction false} ReceivedDateFirst(items: seq<TimelineItem>, k: nat)
    requires FirstDated(items, k)
    ensures ReceivedDate(items) == ParseDateString(Trim(items[k].caption.value))
  {
    if k > 0 {
      var tail := items[1..];
      assert forall j :: 0 <= j < k - 1 ==> tail[j] == items[j + 1];
      ReceivedDateFirst(tail, k - 1);
    }
  }

  /** With no dated item, `getReceivedDate` returns null. */
  lemma {:induction false} ReceivedDateNone(items: seq<TimelineItem>)
    requires forall k :: 0 <= k < |items| ==> !IsDated(items[k])
    ensures ReceivedDate(items).None?
  {
    if |items| > 0 {
      var tail := items[1..];
      assert forall k :: 0 <= k < |tail| ==> tail[k] == items[k + 1];
      ReceivedDateNone(tail);
    }
  }

  lemma {:induction false} DatedSource(items: seq<TimelineItem>) returns (k: nat)
    requires ReceivedDate(items).Some?
    ensures FirstDated(items, k)
  {
    if IsDated(items[0]) {
      k := 0;
    } else {
      var tail := items[1..];
      var k' := DatedSource(tail);
      k := k' + 1;
      assert forall j :: 0 < j <= k' ==> items[j] == tail[j - 1];
    }
  }

  /** A received date is the parse of the trimmed caption of the first
      dated item: every earlier item is undated. */
  lemma ReceivedDateSource(items: seq<TimelineItem>) returns (k: nat)
    requires ReceivedDate(items).Some?
    ensures FirstDated(items, k)
    ensures ReceivedDate(items) == ParseDateString(Trim(items[k].caption.value))
  {
    k := DatedSource(items);
    ReceivedDateFirst(items, k);
  }

  /** `getReceivedDate` returns null exactly when no item is dated or the
      first dated item's caption does not parse. */
  lemma ReceivedDateNoneIff(items: seq<TimelineItem>)
    ensures ReceivedDate(items).None? <==>
            forall k: nat :: FirstDated(items, k) ==>
                             ParseDateString(Trim(items[k].caption.value)).None?
  {
    if ReceivedDate(items).Some? {
      var k := ReceivedDateSource(items);
    } else {
      forall k: nat | FirstDated(items, k)
        ensures ParseDateString(Trim(items[k].caption.value)).None?
      {
        ReceivedDateFirst(items, k);
      }
    }
  }

  /** `getReceivedDate`. */
  method GetReceivedDate(items: seq<TimelineItem>) returns (date: Option<DateParts>)
    ensures date == ReceivedDate(items)
  {
    for i := 0 to |items|
      invariant ReceivedDate(items[i..]) == ReceivedDate(items)
    {
      assert items[i..][1..] == items[i + 1..];
      var item := items[i];
      if Includes(item.text, NewLeadMarker) {
        var dateEl := item.caption;
        if dateEl.Some? {
          return ParseDateString(Trim(dateEl.value));
        }
      }
    }
    return None;
  }

  // ---------------------------------------------------------------------
  // extractSourceData
  // ---------------------------------------------------------------------

  datatype ExtractedRecord = ExtractedRecord(
    leadNumber: string,
    firstName: string,
    lastName: string,
    email: string,
    primaryPhone: string,
    preferredPhone: string,
    verbatim: string,
    receivedDate: Option<DateParts>,
    confirmationEmail: string)

  /** The record shown while nothing has been extracted. */
  const EmptyRecord: ExtractedRecord :=
    ExtractedRecord("", "", "", "", "", "", "", None, "")

  // The label variants, as the source file spells them (the accented
  // letters of the French variants are stored mis-encoded there).
  const FirstNameLabels: seq<string> := ["First name"]
  const LastNameLabels: seq<string> := ["Last name"]
  const EmailLabels: seq<string> := ["Email address"]
  const PrimaryPhoneLabels: seq<string> := ["Primary phone number"]
  const PreferredPhoneLabels: seq<string> :=
    ["Num\U{221A}\U{00A9}ro du contact principal", "Preferred contact number (if different from above)"]
  const VerbatimLabels: seq<string> :=
    ["Pouvez-vous d\U{221A}\U{00A9}crire le probl\U{221A}\U{00AE}me", "Can you share your unresolved concern"]
  const ConfirmationEmailLabels: seq<string> := ["Confirmation Email"]

  function SourceData(page: Page): ExtractedRecord
  {
    ExtractedRecord(
      LeadNumber(page.headings),
      TextByLabel(page.labels, FirstNameLabels),
      TextByLabel(page.labels, LastNameLabels),
      TextByLabel(page.labels, EmailLabels),
      CleanPhone(TextByLabel(page.labels, PrimaryPhoneLabels)),
      CleanPhone(TextByLabel(page.labels, PreferredPhoneLabels)),
      TextByLabel(page.labels, VerbatimLabels),
      ReceivedDate(page.timeline),
      TextByLabel(page.labels, ConfirmationEmailLabels))
  }

  /** `extractSourceData`. */
  method ExtractSourceData(page: Page) returns (rec: ExtractedRecord)
    ensures rec == SourceData(page)
  {
    var leadNumber := GetLeadNumber(page.headings);
    var firstName := GetTextByLabel(page.labels, FirstNameLabels);
    var lastName := GetTextByLabel(page.labels, LastNameLabels);
    var email := GetTextByLabel(page.labels, EmailLabels);
    var primary := GetTextByLabel(page.labels, PrimaryPhoneLabels);
    var preferred := GetTextByLabel(page.labels, PreferredPhoneLabels);
    var verbatim := GetTextByLabel(page.labels, VerbatimLabels);
    var receivedDate := GetReceivedDate(page.timeline);
    var confirmationEmail := GetTextByLabel(page.labels, ConfirmationEmailLabels);
    rec := ExtractedRecord(leadNumber, firstName, lastName, email, CleanPhone(primary),
                           CleanPhone(preferred), verbatim, receivedDate, confirmationEmail);
  }

  predicate IsTrimmed(s: string)
  {
    Trim(s) == s
  }

  /** The lead number of any page is empty or a run of `[A-Z0-9]`. */
  lemma LeadNumberShape(headings: seq<string>)
    ensures forall p :: 0 <= p < |LeadNumber(headings)| ==> IsUpperAlnum(LeadNumber(headings)[p])
  {
    if |LeadNumber(headings)| > 0 {
      var k := LeadNumberSource(headings);
    }
  }

  /** What every extraction delivers, whatever the page: a lead number that
      is empty or a run of `[A-Z0-9]`, trimmed text fields, and phone
      numbers of at most ten digits. */
  lemma SourceDataIsNormalised(page: Page)
    ensures var rec := SourceData(page);
      && (forall p :: 0 <= p < |rec.leadNumber| ==> IsUpperAlnum(rec.leadNumber[p]))
      && IsTrimmed(rec.firstName) && IsTrimmed(rec.lastName) && IsTrimmed(rec.email)
      && IsTrimmed(rec.verbatim) && IsTrimmed(rec.confirmationEmail)
      && AllDigits(rec.primaryPhone) && |rec.primaryPhone| <= 10
      && AllDigits(rec.preferredPhone) && |rec.preferredPhone| <= 10
  {
    LeadNumberShape(page.headings);
    TextByLabelTrimmed(page.labels, FirstNameLabels);
    TextByLabelTrimmed(page.labels, LastNameLabels);
    TextByLabelTrimmed(page.labels, EmailLabels);
    TextByLabelTrimmed(page.labels, VerbatimLabels);
    TextByLabelTrimmed(page.labels, ConfirmationEmailLabels);
  }

  // ---------------------------------------------------------------------
  // truncateText
  // ---------------------------------------------------------------------

  /** `truncateText(text, maxLength)`: the text itself when it fits,
      otherwise its first `maxLength` characters followed by `...`. */
  function TruncateText(text: string, maxLength: nat): (r: string)
    ensures |r| <= if |text| <= maxLength then |text| else maxLength + 3
    ensures |text| <= maxLength ==> r == text
    ensures |text| > maxLength ==> |r| == maxLength + 3
    ensures |text| > maxLength ==> r[..maxLength] == text[..maxLength] && r[maxLength..] == "..."
  {
    if |text| == 0 then ""
    else if |text| <= maxLength then text
    else text[..maxLength] + "..."
  }

}
