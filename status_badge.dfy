/** The status badge: the style class of a report status, matched without regard to case,
    and the status text in title case. */
module StatusBadge {
  import opened Js
  import opened JsStrings

  /** The class for `status?.toLowerCase()`: a missing status is drawn as a draft, as is any
      text the switch does not list; a status that is set but is not text makes
      `toLowerCase` throw a TypeError. */
  function StatusClass(status: Value): (r: Result<string>)
    ensures r.Err? <==> !Nullish(status) && !status.Str?
    ensures r.Err? ==> r.error == TypeErrorValue
    ensures r.Ok? ==> r.value in {"badge-draft", "badge-pending", "badge-approved", "badge-rejected",
                                  "badge-information-requested"}
    ensures Nullish(status) ==> r == Ok("badge-draft")
    ensures status.Str? && (Lower(status.s) == "pending" || Lower(status.s) == "submitted") ==> r == Ok("badge-pending")
    ensures status.Str? && Lower(status.s) == "approved" ==> r == Ok("badge-approved")
    ensures status.Str? && Lower(status.s) == "rejected" ==> r == Ok("badge-rejected")
    ensures status.Str? && (Lower(status.s) == "information requested" || Lower(status.s) == "info requested") ==>
              r == Ok("badge-information-requested")
    ensures status.Str? ==> (r == Ok("badge-draft") <==>
              Lower(status.s) !in {"pending", "submitted", "approved", "rejected", "information requested", "info requested"})
  {
    if Nullish(status) then Ok("badge-draft")
    else
      var s :- LowerValue(status);
      if s == "draft" then Ok("badge-draft")
      else if s == "pending" || s == "submitted" then Ok("badge-pending")
      else if s == "approved" then Ok("badge-approved")
      else if s == "rejected" then Ok("badge-rejected")
      else if s == "information requested" || s == "info requested" then Ok("badge-information-requested")
      else Ok("badge-draft")
  }

  /** The mapping ignores case. */
  lemma StatusClassIgnoresCase(s: string)
    ensures StatusClass(Str(Upper(s))) == StatusClass(Str(s))
  {
    LowerOfUpper(s);
  }

  /** A status whose length matches no known spelling is drawn as a draft; the backend's
      PENDING_APPROVAL status is one of them. */
  lemma UnknownStatusIsDraft(s: string)
    requires |s| !in {5, 7, 8, 9, 14, 21}
    ensures StatusClass(Str(s)) == Ok("badge-draft")
  {
  }

  lemma PendingApprovalIsDraft()
    ensures StatusClass(Str("PENDING_APPROVAL")) == Ok("badge-draft")
  {
    UnknownStatusIsDraft("PENDING_APPROVAL");
  }

  /** `word.charAt(0).toUpperCase() + word.slice(1).toLowerCase()`. */
  function TitleWord(w: string): (r: string)
    ensures |r| == |w|
  {
    if w == [] then [] else [UpperChar(w[0])] + Lower(w[1..])
  }

  function TitleWords(words: seq<string>): (r: seq<string>)
    ensures |r| == |words| && forall i :: 0 <= i < |words| ==> r[i] == TitleWord(words[i])
  {
    if words == [] then [] else [TitleWord(words[0])] + TitleWords(words[1..])
  }

  /** `formatStatus(status)`: `Draft` for a missing status, otherwise each space-separated
      word title-cased; a set status that is not text makes `split` throw a TypeError. */
  function FormatStatus(status: Value): Result<string> {
    if !Truthy(status) then Ok("Draft")
    else if status.Str? then Ok(Join(TitleWords(Split(status.s, ' ')), ' '))
    else Err(TypeErrorValue)
  }

  /** Title-casing keeps a word free of spaces, and doing it twice is doing it once. */
  lemma TitleWordFacts(w: string)
    ensures Free(w, ' ') ==> Free(TitleWord(w), ' ')
    ensures TitleWord(TitleWord(w)) == TitleWord(w)
  {
    if w != [] {
      var t := TitleWord(w);
      forall i | 0 <= i < |w| ensures (t[i] == ' ') <==> (w[i] == ' ') {
        if i == 0 { CaseMappingKeepsSpaces(w[0]); } else { CaseMappingKeepsSpaces(w[i]); }
      }
      LowerIdempotent(w[1..]);
      assert t[1..] == Lower(w[1..]);
    }
  }

  /** Joining title-cased words is as long as joining the words. */
  lemma {:induction false} JoinTitleLength(words: seq<string>)
    ensures |Join(TitleWords(words), ' ')| == |Join(words, ' ')|
  {
    if |words| > 1 {
      JoinTitleLength(words[1..]);
      assert TitleWords(words)[1..] == TitleWords(words[1..]);
    }
  }

  /** The formatted text has as many words as the status and the same length. */
  lemma FormatKeepsWords(s: string)
    requires s != ""
    ensures FormatStatus(Str(s)).Ok?
    ensures Split(FormatStatus(Str(s)).value, ' ') == TitleWords(Split(s, ' '))
    ensures |Split(FormatStatus(Str(s)).value, ' ')| == |Split(s, ' ')|
    ensures |FormatStatus(Str(s)).value| == |s|
  {
    var words := Split(s, ' ');
    SplitFree(s, ' ');
    SplitJoin(s, ' ');
    forall k | 0 <= k < |words| ensures Free(TitleWords(words)[k], ' ') {
      TitleWordFacts(words[k]);
    }
    JoinSplit(TitleWords(words), ' ');
    JoinTitleLength(words);
  }

  /** Formatting a formatted status changes nothing; only a set status that is not text
      fails to format. */
  lemma FormatIdempotent(status: Value)
    ensures FormatStatus(status).Err? <==> Truthy(status) && !status.Str?
    ensures FormatStatus(status).Ok? ==> FormatStatus(Str(FormatStatus(status).value)) == FormatStatus(status)
  {
    if Truthy(status) && status.Str? {
      var s := status.s;
      FormatKeepsWords(s);
      var once := TitleWords(Split(s, ' '));
      assert TitleWords(once) == once by {
        forall k | 0 <= k < |once| ensures TitleWords(once)[k] == once[k] {
          TitleWordFacts(Split(s, ' ')[k]);
        }
      }
    } else if !Truthy(status) {
      assert FormatStatus(status) == Ok("Draft");
      DraftIsFormatted();
    }
  }

  /** `Draft` is already in title case. */
  lemma DraftIsFormatted()
    ensures FormatStatus(Str("Draft")) == Ok("Draft")
  {
    var d := "Draft";
    assert Truthy(Str(d));
    assert Split(d, ' ') == [d] by {
      JoinSplit([d], ' ');
    }
    assert TitleWord(d) == d by {
      var l := Lower(d[1..]);
      assert l[0] == 'r' && l[1] == 'a' && l[2] == 'f' && l[3] == 't';
    }
    assert TitleWords([d]) == [d];
  }
}
