/** The string handling of the dashboard's draft loading and saving
    (`streamlit_app.py`): the query `load_email_draft` sends, the draft file
    names it tries, how it cuts the subject and the body out of a markdown
    draft, and the quote escaping `save_email_draft` applies before splicing
    JSON into SQL. */
module EmailDrafts {
  import opened Wrappers
  import opened Text

  // ------------------------------------------------------------ draft query

  const IdQueryPrefix := "SELECT email_draft FROM crm WHERE id = "
  const EmailQueryPrefix := "SELECT email_draft FROM crm WHERE email = "

  /** Python truthiness of the `contact_id` argument. */
  predicate IdGiven(contactId: Option<int>) {
    contactId.Some? && contactId.value != 0
  }

  predicate EmailGiven(email: Option<string>) {
    email.Some? && email.value != ""
  }

  /** The query `load_email_draft` sends, as written: by id when `contact_id`
      is truthy, else by email with the email spliced between quotes as it is;
      no query when neither is given. */
  function DraftQuery(contactId: Option<int>, email: Option<string>): (q: Option<string>)
    ensures q.None? <==> !IdGiven(contactId) && !EmailGiven(email)
    ensures IdGiven(contactId) ==> q == Some(IdQueryPrefix + IntToDecimal(contactId.value))
    ensures !IdGiven(contactId) && EmailGiven(email) ==> q == Some(EmailQueryPrefix + "'" + email.value + "'")
  {
    if IdGiven(contactId) then Some(IdQueryPrefix + IntToDecimal(contactId.value))
    else if EmailGiven(email) then Some(EmailQueryPrefix + "'" + email.value + "'")
    else None
  }

  /** The email query with the email escaped as `save_email_draft` escapes its
      JSON: the literal between the quotes always reads back as the email. */
  function DraftQueryEscaped(contactId: Option<int>, email: Option<string>): (q: Option<string>)
    ensures q.None? <==> !IdGiven(contactId) && !EmailGiven(email)
    ensures IdGiven(contactId) ==> q == DraftQuery(contactId, email)
    ensures !IdGiven(contactId) && EmailGiven(email) ==>
              exists literal :: q == Some(EmailQueryPrefix + "'" + literal + "'")
                                && WellEscaped(literal) && CollapseQuotes(literal) == email.value
  {
    if IdGiven(contactId) then DraftQuery(contactId, email)
    else if EmailGiven(email) then
      var literal := EscapeQuotes(email.value);
      EscapeWellEscaped(email.value);
      CollapseEscape(email.value);
      Some(EmailQueryPrefix + "'" + literal + "'")
    else None
  }

  /** An email with an apostrophe, which addresses may contain, ends the SQL
      literal early in the query as written. */
  lemma UnescapedEmailBreaksLiteral()
    ensures DraftQuery(None, Some("o'brien@example.com")) == Some(EmailQueryPrefix + "'" + "o'brien@example.com" + "'")
    ensures !WellEscaped("o'brien@example.com")
  {
    var e := "o'brien@example.com";
    assert e[0] != '\'' && e[1] == '\'' && e[2] != '\'';
    assert e[1..][1..] == e[2..];
  }

  // ------------------------------------------------------- quote escaping

  /** Every single quote doubled, as SQL quoting wants. */
  function EscapeQuotes(s: string): string {
    if s == "" then "" else (if s[0] == '\'' then "''" else [s[0]]) + EscapeQuotes(s[1..])
  }

  /** Every doubled quote collapsed back to one, pairs taken left to right. */
  function CollapseQuotes(t: string): string {
    if |t| >= 2 && t[0] == '\'' && t[1] == '\'' then "'" + CollapseQuotes(t[2..])
    else if t == "" then ""
    else [t[0]] + CollapseQuotes(t[1..])
  }

  /** Every single quote in `t` belongs to a doubled pair, as SQL requires
      inside a quoted literal. */
  predicate WellEscaped(t: string) {
    if t == "" then true
    else if t[0] == '\'' then |t| >= 2 && t[1] == '\'' && WellEscaped(t[2..])
    else WellEscaped(t[1..])
  }

  lemma {:induction false} EscapeWellEscaped(s: string)
    ensures WellEscaped(EscapeQuotes(s))
    decreases |s|
  {
    if s != "" {
      var rest := EscapeQuotes(s[1..]);
      EscapeWellEscaped(s[1..]);
      if s[0] == '\'' {
        assert ("''" + rest)[2..] == rest;
      } else {
        assert ([s[0]] + rest)[1..] == rest;
      }
    }
  }

  /** Collapsing the doubled quotes recovers the original string. */
  lemma {:induction false} CollapseEscape(s: string)
    ensures CollapseQuotes(EscapeQuotes(s)) == s
    decreases |s|
  {
    if s != "" {
      var rest := EscapeQuotes(s[1..]);
      CollapseEscape(s[1..]);
      if s[0] == '\'' {
        assert ("''" + rest)[2..] == rest;
      } else {
        var t := [s[0]] + rest;
        assert t[1..] == rest;
        assert s == [s[0]] + s[1..];
      }
    }
  }

  /** And conversely: a well-escaped literal is the escaping of what it
      collapses to, so escaping is a bijection onto well-escaped strings. */
  lemma {:induction false} EscapeCollapse(t: string)
    requires WellEscaped(t)
    ensures EscapeQuotes(CollapseQuotes(t)) == t
    decreases |t|
  {
    if t != "" {
      if t[0] == '\'' {
        EscapeCollapse(t[2..]);
        var c := "'" + CollapseQuotes(t[2..]);
        assert c[1..] == CollapseQuotes(t[2..]);
        assert t == "''" + t[2..];
      } else {
        EscapeCollapse(t[1..]);
        var c := [t[0]] + CollapseQuotes(t[1..]);
        assert c[1..] == CollapseQuotes(t[1..]);
        assert t == [t[0]] + t[1..];
      }
    }
  }

  // ------------------------------------------------------- draft file names

  predicate IsMarkdownName(name: string) {
    |name| >= 3 && name[|name| - 3..] == ".md"
  }

  function MarkdownFile(stem: string): (name: string)
    ensures IsMarkdownName(name)
  {
    stem + ".md"
  }

  /** The files under `outreach_emails/` that `load_email_draft` tries, in
      order: the lower-cased and the as-given `first_last.md` when both
      stripped names are non-empty, then `<local part>.md` when an email is
      given. */
  method DraftFilenames(firstName: Option<string>, lastName: Option<string>, email: Option<string>)
    returns (names: seq<string>)
    ensures var first := Strip(OrEmpty(firstName));
            var last := Strip(OrEmpty(lastName));
            var named := first != "" && last != "";
            && |names| == (if named then 2 else 0) + (if EmailGiven(email) then 1 else 0)
            && (named ==> names[0] == MarkdownFile(Lower(first) + "_" + Lower(last))
                          && names[1] == MarkdownFile(first + "_" + last))
            && (EmailGiven(email) ==> names[|names| - 1] == MarkdownFile(BeforeFirst(email.value, '@')))
  {
    var first := Strip(OrEmpty(firstName));
    var last := Strip(OrEmpty(lastName));
    names := [];
    if first != "" && last != "" {
      var lowered := MarkdownFile(Lower(first) + "_" + Lower(last));
      var given := MarkdownFile(first + "_" + last);
      names := names + [lowered, given];
      assert names == [lowered, given];
    }
    if EmailGiven(email) {
      var local := MarkdownFile(BeforeFirst(email.value, '@'));
      ghost var before := names;
      names := names + [local];
      assert names[|names| - 1] == local;
      assert names[..|before|] == before;
    }
  }

  // ------------------------------------------------- subject and body parsing

  const SubjectMarker := "**Subject:**"
  const BodyMarker := "**Body:**"

  /** Where the text after the first `marker` starts, when `marker` occurs. */
  function AfterMarker(content: string, marker: string): (start: nat)
    requires Contains(content, marker)
    ensures start == Find(content, marker, 0) + |marker| && start <= |content|
  {
    Find(content, marker, 0) + |marker|
  }

  /** The subject as written: from after `**Subject:**` to the next newline,
      stripped; `find` returning -1 when no newline follows makes the slice end
      one character before the end of the content. */
  function ExtractSubject(content: string): string {
    if !Contains(content, SubjectMarker) then ""
    else
      var start := AfterMarker(content, SubjectMarker);
      var end := Find(content, "\n", start);
      Strip(Slice(content, start, end))
  }

  /** The subject as evidently intended: the rest of the marker's line, up to
      the next newline or the end of the content. */
  function ExtractSubjectToLineEnd(content: string): string {
    if !Contains(content, SubjectMarker) then ""
    else
      var start := AfterMarker(content, SubjectMarker);
      var end := Find(content, "\n", start);
      Strip(Slice(content, start, if end == -1 then |content| else end))
  }

  /** With a newline after the marker the subject is the stripped rest of
      that line, which holds no newline. */
  lemma SubjectIsRestOfLine(content: string)
    requires Contains(content, SubjectMarker)
    requires Find(content, "\n", AfterMarker(content, SubjectMarker)) != -1
    ensures var start := AfterMarker(content, SubjectMarker);
            var end := Find(content, "\n", start);
            && ExtractSubject(content) == Strip(content[start..end])
            && '\n' !in content[start..end]
  {
    var start := AfterMarker(content, SubjectMarker);
    var end := Find(content, "\n", start);
    var line := Slice(content, start, end);
    assert ExtractSubject(content) == Strip(line);
    assert line == content[start..end];
    forall i | 0 <= i < end - start ensures content[start..end][i] != '\n' {
      assert !MatchesAt(content, "\n", start + i);
    }
  }

  /** With a newline after the marker the two readings agree. */
  lemma SubjectReadingsAgree(content: string)
    requires Contains(content, SubjectMarker)
    requires Find(content, "\n", AfterMarker(content, SubjectMarker)) != -1
    ensures ExtractSubjectToLineEnd(content) == ExtractSubject(content)
  {
    var start := AfterMarker(content, SubjectMarker);
    var line := Slice(content, start, Find(content, "\n", start));
    assert ExtractSubject(content) == Strip(line);
    assert ExtractSubjectToLineEnd(content) == Strip(line);
  }

  /** Without a newline after the marker, the code as written drops the last
      character of the content from the subject. */
  lemma SubjectWithoutNewlineDropsLastChar(content: string)
    requires Contains(content, SubjectMarker)
    requires Find(content, "\n", AfterMarker(content, SubjectMarker)) == -1
    ensures var start := AfterMarker(content, SubjectMarker);
            ExtractSubject(content) == (if start < |content| - 1 then Strip(content[start..|content| - 1]) else "")
  {
    var start := AfterMarker(content, SubjectMarker);
    var cut := Slice(content, start, -1);
    assert ExtractSubject(content) == Strip(cut);
    assert |content| >= |SubjectMarker|;
    assert SliceBound(-1, |content|) == |content| - 1;
    assert cut == (if start < |content| - 1 then content[start..|content| - 1] else "");
  }

  /** Without a newline after the marker, the corrected reading keeps the whole
      rest of the content. */
  lemma SubjectWithoutNewlineKeepsRest(content: string)
    requires Contains(content, SubjectMarker)
    requires Find(content, "\n", AfterMarker(content, SubjectMarker)) == -1
    ensures var start := AfterMarker(content, SubjectMarker);
            ExtractSubjectToLineEnd(content) == Strip(content[start..])
  {
    var start := AfterMarker(content, SubjectMarker);
    var rest := Slice(content, start, |content|);
    assert ExtractSubjectToLineEnd(content) == Strip(rest);
    assert rest == content[start..];
  }

  /** Where the subject of `**Subject:** <w>` starts, and that no newline
      follows it when `w` has none. */
  lemma TrailingSubjectLine(w: string)
    requires '\n' !in w
    ensures var content := SubjectMarker + " " + w;
            && Contains(content, SubjectMarker)
            && AfterMarker(content, SubjectMarker) == 12
            && Find(content, "\n", 12) == -1
  {
    var content := SubjectMarker + " " + w;
    assert MatchesAt(content, SubjectMarker, 0) by {
      assert content[..|SubjectMarker|] == SubjectMarker;
    }
    assert Find(content, SubjectMarker, 0) == 0;
    assert content[12] == ' ';
    forall i | 13 <= i < |content| ensures content[i] != '\n' {
      assert content[i] == w[i - 13];
    }
  }

  /** A draft whose last line is `**Subject:** <w>`, `w` a subject without
      surrounding whitespace: as written the subject loses the last character
      of `w`, while read to the end of the line it is `w`. */
  lemma SubjectLineAtEnd(w: string)
    requires w != "" && '\n' !in w
    requires !IsSpace(w[0]) && !IsSpace(w[|w| - 1])
    ensures var content := SubjectMarker + " " + w;
            && ExtractSubject(content) == Strip(w[..|w| - 1])
            && ExtractSubjectToLineEnd(content) == w
            && |ExtractSubject(content)| < |w|
  {
    var content := SubjectMarker + " " + w;
    TrailingSubjectLine(w);
    SubjectWithoutNewlineDropsLastChar(content);
    SubjectWithoutNewlineKeepsRest(content);
    var x := w[..|w| - 1];
    assert content[12..|content| - 1] == " " + x;
    assert content[12..] == " " + w;
    StripSpacePrefix(x);
    StripSpacePrefix(w);
    StripUnpadded(w);
  }

  /** `**Subject:** Hi` gives the subject `H`. */
  lemma SubjectDropsLastCharExample()
    ensures ExtractSubject(SubjectMarker + " " + "Hi") == "H"
    ensures ExtractSubjectToLineEnd(SubjectMarker + " " + "Hi") == "Hi"
  {
    SubjectLineAtEnd("Hi");
    assert "Hi"[..1] == "H";
  }

  /** Where the body ends: the first `\n---` after its start, else the first
      `\n##`, else the end of the content. */
  function BodyEnd(content: string, start: nat): (end: int)
    requires start <= |content|
    ensures start <= end <= |content|
  {
    var dashes := Find(content, "\n---", start);
    var heading := if dashes == -1 then Find(content, "\n##", start) else dashes;
    if heading == -1 then |content| else heading
  }

  function ExtractBody(content: string): string {
    if !Contains(content, BodyMarker) then ""
    else
      var start := AfterMarker(content, BodyMarker);
      Strip(Slice(content, start, BodyEnd(content, start)))
  }

  /** The body is the stripped text between the marker and its end; a `\n---`
      anywhere after the marker ends it even when a `\n##` comes first, and
      the text kept holds no `\n---`. */
  lemma BodySection(content: string)
    requires Contains(content, BodyMarker)
    ensures var start := AfterMarker(content, BodyMarker);
            var end := BodyEnd(content, start);
            && ExtractBody(content) == Strip(content[start..end])
            && (Find(content, "\n---", start) != -1 ==> end == Find(content, "\n---", start))
            && (Find(content, "\n---", start) == -1 && Find(content, "\n##", start) != -1 ==>
                  end == Find(content, "\n##", start))
            && (Find(content, "\n---", start) == -1 && Find(content, "\n##", start) == -1 ==> end == |content|)
            && (forall i :: start <= i && i + 4 <= end ==> !MatchesAt(content, "\n---", i))
  {
  }

  /** Without a body marker there is no body, and without a subject marker no
      subject. */
  lemma AbsentMarkers(content: string)
    ensures !Contains(content, BodyMarker) ==> ExtractBody(content) == ""
    ensures !Contains(content, SubjectMarker) ==> ExtractSubject(content) == ""
  {
  }
}
