/** The per-row rules of the dashboard tables (`streamlit_app.py`): the
    priority badge, the display name of a contact, the enrichment status of a
    CRM record, and the counts the metrics show beside them. A table column is
    a sequence of row values; a missing pandas cell is `None`. */
module Dashboard {
  import opened Wrappers
  import opened Text

  // ----------------------------------------------------------- priority badge

  const Fire := '\U{1F525}'
  const Star := '\U{2B50}'
  const Check := '\U{2713}'

  const HotThreshold := 90
  const HighThreshold := 75

  /** The `Score` column: a mark chosen by the score's tier, a space and the
      score in decimal. */
  function Badge(score: int): (b: string)
    ensures |b| >= 2 && b[1..] == " " + IntToDecimal(score)
    ensures b[0] == Fire <==> score >= HotThreshold
    ensures b[0] == Star <==> HighThreshold <= score < HotThreshold
    ensures b[0] == Check <==> score < HighThreshold
  {
    var mark := if score >= HotThreshold then Fire else if score >= HighThreshold then Star else Check;
    [mark] + " " + IntToDecimal(score)
  }

  /** How many rows have a score of at least `t`, as the metrics count them. */
  function CountAtLeast(scores: seq<int>, t: int): (n: nat)
    ensures n <= |scores|
  {
    if scores == [] then 0
    else (if scores[0] >= t then 1 else 0) + CountAtLeast(scores[1..], t)
  }

  /** The number of rows whose badge carries `mark`. */
  function CountMark(scores: seq<int>, mark: char): nat {
    if scores == [] then 0
    else (if Badge(scores[0])[0] == mark then 1 else 0) + CountMark(scores[1..], mark)
  }

  /** A higher threshold never counts more rows: the hot-lead metric never
      exceeds the high-priority metric. */
  lemma {:induction false} CountAtLeastAntitone(scores: seq<int>, lo: int, hi: int)
    requires lo <= hi
    ensures CountAtLeast(scores, hi) <= CountAtLeast(scores, lo)
    decreases |scores|
  {
    if scores != [] {
      CountAtLeastAntitone(scores[1..], lo, hi);
    }
  }

  lemma HotLeadsWithinHighPriority(scores: seq<int>)
    ensures CountAtLeast(scores, HotThreshold) <= CountAtLeast(scores, HighThreshold)
  {
    CountAtLeastAntitone(scores, HighThreshold, HotThreshold);
  }

  /** The metrics agree with the table: the hot leads are the rows with a fire
      badge, the high-priority rows those with a fire or a star, and the three
      marks split the table. */
  lemma {:induction false} MetricsMatchBadges(scores: seq<int>)
    ensures CountMark(scores, Fire) == CountAtLeast(scores, HotThreshold)
    ensures CountMark(scores, Fire) + CountMark(scores, Star) == CountAtLeast(scores, HighThreshold)
    ensures CountMark(scores, Fire) + CountMark(scores, Star) + CountMark(scores, Check) == |scores|
    decreases |scores|
  {
    if scores != [] {
      MetricsMatchBadges(scores[1..]);
    }
  }

  // ------------------------------------------------------------ display name

  /** First and last name, each read as empty when missing, joined by a space
      and stripped. */
  function FullName(first: Option<string>, last: Option<string>): string {
    Strip(OrEmpty(first) + " " + OrEmpty(last))
  }

  /** The display name of a contact, the same rule for the `Name` column of
      the priority table and for the selected contact: the stripped full name,
      else the local part of the email. The query always selects `email`, so a
      row without a name and with a missing email cell reaches `None.split`,
      which raises `AttributeError`, here `None`. */
  function DisplayName(first: Option<string>, last: Option<string>, email: Option<string>): (name: Option<string>)
    ensures name.None? <==> FullName(first, last) == "" && email.None?
    ensures FullName(first, last) != "" ==> name == Some(FullName(first, last))
    ensures FullName(first, last) == "" && email.Some? ==>
              name == Some(BeforeFirst(email.value, '@')) && '@' !in name.value
  {
    var full := FullName(first, last);
    if full != "" then Some(full)
    else if email.Some? then Some(BeforeFirst(email.value, '@'))
    else None
  }

  /** A contact with both names shown: the first name loses its leading
      whitespace, the last its trailing whitespace, and what is inside is
      kept. */
  lemma FullNameOfBothNames(first: string, last: string)
    requires !AllSpace(first) && !AllSpace(last)
    ensures FullName(Some(first), Some(last)) == StripLeft(first) + " " + StripRight(last)
  {
    assert first + " " + last == first + (" " + last);
    StripLeftConcat(first, " " + last);
    assert StripLeft(first) + (" " + last) == (StripLeft(first) + " ") + last;
    StripRightConcat(StripLeft(first) + " ", last);
  }

  /** A contact with only a last name is shown by that name, stripped. */
  lemma FullNameOfLastOnly(last: string)
    ensures FullName(None, Some(last)) == Strip(last)
  {
    assert "" + " " + last == " " + last;
    StripLeftSpacePrefix(" ", last);
  }

  /** A contact whose last name is missing or blank is shown by the first
      name, stripped. */
  lemma FullNameOfFirstOnly(first: string, last: Option<string>)
    requires AllSpace(OrEmpty(last))
    ensures FullName(Some(first), last) == Strip(first)
  {
    var tail := " " + OrEmpty(last);
    var s := first + tail;
    assert s == first + " " + OrEmpty(last);
    assert AllSpace(tail) by {
      forall i | 0 <= i < |tail| ensures IsSpace(tail[i]) {
        if i > 0 {
          assert tail[i] == OrEmpty(last)[i - 1];
        }
      }
    }
    StripEmptyIffBlank(first);
    if AllSpace(first) {
      assert AllSpace(s) by {
        forall i | 0 <= i < |s| ensures IsSpace(s[i]) {
          if i >= |first| {
            assert s[i] == tail[i - |first|];
          }
        }
      }
      StripEmptyIffBlank(s);
    } else {
      StripLeftConcat(first, tail);
      StripRightSpaceSuffix(StripLeft(first), tail);
    }
  }

  /** A contact whose names are missing or blank is shown by the local part of
      the email, and has no name at all when the email is missing too. */
  lemma BlankNamesShowEmail(first: Option<string>, last: Option<string>, email: Option<string>)
    requires AllSpace(OrEmpty(first)) && AllSpace(OrEmpty(last))
    ensures DisplayName(first, last, email) == if email.Some? then Some(BeforeFirst(email.value, '@')) else None
  {
    var s := OrEmpty(first) + " " + OrEmpty(last);
    assert forall i :: 0 <= i < |s| ==> IsSpace(s[i]) by {
      forall i | 0 <= i < |s| ensures IsSpace(s[i]) {
        if i < |OrEmpty(first)| {
          assert s[i] == OrEmpty(first)[i];
        } else if i > |OrEmpty(first)| {
          assert s[i] == OrEmpty(last)[i - |OrEmpty(first)| - 1];
        }
      }
    }
    StripEmptyIffBlank(s);
  }

  // ------------------------------------------------------- enrichment status

  const Enriched := "Enriched"
  const NotEnriched := "Not Enriched"

  /** A record counts as enriched when it has a company or a title. */
  function EnrichmentStatus(company: Option<string>, title: Option<string>): (status: string)
    ensures status == Enriched <==> company.Some? || title.Some?
    ensures status == NotEnriched <==> company.None? && title.None?
  {
    if company.Some? || title.Some? then Enriched else NotEnriched
  }

  datatype Record = Record(company: Option<string>, title: Option<string>)

  /** How many records carry `status`, zero when none does. */
  function CountStatus(records: seq<Record>, status: string): (n: nat)
    ensures n <= |records|
  {
    if records == [] then 0
    else (if EnrichmentStatus(records[0].company, records[0].title) == status then 1 else 0)
         + CountStatus(records[1..], status)
  }

  /** The enriched and the not-enriched metrics add up to the total. */
  lemma {:induction false} StatusCountsPartition(records: seq<Record>)
    ensures CountStatus(records, Enriched) + CountStatus(records, NotEnriched) == |records|
    decreases |records|
  {
    if records != [] {
      StatusCountsPartition(records[1..]);
    }
  }

  /** The three enrichment metrics: total records, enriched, not enriched. */
  datatype Metrics = Metrics(total: nat, enriched: nat, notEnriched: nat)

  /** The metrics as the dashboard reads them. A CRM with no rows is an empty
      DataFrame without columns, so reading its `Enrichment Status` column
      raises `KeyError`, here `None`. */
  function EnrichmentMetrics(records: seq<Record>): (m: Option<Metrics>)
    ensures m.None? <==> records == []
    ensures m.Some? ==> m.value == CountedMetrics(records)
  {
    if records == [] then None else Some(CountedMetrics(records))
  }

  /** The metrics counted over the records, which for an empty CRM are all
      zero: every record is counted once, as enriched or as not enriched. */
  function CountedMetrics(records: seq<Record>): (m: Metrics)
    ensures m.total == |records| && m.enriched + m.notEnriched == m.total
    ensures m.enriched == CountStatus(records, Enriched) && m.notEnriched == CountStatus(records, NotEnriched)
  {
    StatusCountsPartition(records);
    Metrics(|records|, CountStatus(records, Enriched), CountStatus(records, NotEnriched))
  }

  /** An empty CRM stops the dashboard, where the counted metrics read zero. */
  lemma EmptyCrmHasNoMetrics()
    ensures EnrichmentMetrics([]) == None
    ensures CountedMetrics([]) == Metrics(0, 0, 0)
  {
  }
}
