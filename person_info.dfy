/**
 * PersonInfoViewController: the signed-in user's profile screen. Modelled
 * here are the e-mail validation guarding an e-mail edit, the gender picked
 * from the two-choice sheet, the error toast of a profile update, and the
 * table's row and header arithmetic over the view model's sections.
 */
module PersonInfo {
  import opened Wrappers

  /** A word character of the regular expression (`\w`), over ASCII: a letter, a digit or the underscore. */
  predicate IsWordChar(c: char)
  {
    ('a' <= c <= 'z') || ('A' <= c <= 'Z') || ('0' <= c <= '9') || c == '_'
  }

  /** A letter of the class `[a-zA-Z]`. */
  predicate IsLetter(c: char)
  {
    ('a' <= c <= 'z') || ('A' <= c <= 'Z')
  }

  /** Every character of `s[from..to]` is a word character. */
  predicate WordsIn(s: string, from: int, to: int)
    requires 0 <= from <= to <= |s|
  {
    forall k | from <= k < to :: IsWordChar(s[k])
  }

  /**
   * The whole of `s` matches `\w+@\w+\.[a-zA-Z]{2,}` with the at sign at
   * `at` and the dot at `dot`: a non-empty word, the at sign, a non-empty
   * word, the dot, then at least two letters up to the end.
   */
  predicate MatchesAt(s: string, at: int, dot: int)
  {
    && 0 < at && at + 1 < dot && dot + 2 < |s|
    && s[at] == '@' && s[dot] == '.'
    && WordsIn(s, 0, at) && WordsIn(s, at + 1, dot)
    && (forall k | dot < k < |s| :: IsLetter(s[k]))
  }

  /** The e-mail pattern as a full-string match: some placement of the at sign and the dot fits. */
  ghost predicate EmailPattern(s: string)
  {
    exists at, dot :: MatchesAt(s, at, dot)
  }

  /** The end of the run of word characters starting at `i`. */
  function WordEnd(s: string, i: nat): (e: nat)
    requires i <= |s|
    ensures i <= e <= |s|
    ensures WordsIn(s, i, e)
    ensures e < |s| ==> !IsWordChar(s[e])
    decreases |s| - i
  {
    if i < |s| && IsWordChar(s[i]) then WordEnd(s, i + 1) else i
  }

  /** A run of word characters ending at a non-word character (or the end) is the run `WordEnd` finds. */
  lemma {:induction false} WordEndAt(s: string, i: nat, e: nat)
    requires i <= e <= |s| && WordsIn(s, i, e)
    requires e < |s| ==> !IsWordChar(s[e])
    ensures WordEnd(s, i) == e
    decreases e - i
  {
    if i < e {
      WordEndAt(s, i + 1, e);
    }
  }

  /**
   * `isValidEmail`: a scan that reads a word, the at sign, a word, the dot,
   * and checks that the rest is at least two letters. Neither the at sign nor
   * the dot is a word character, so each word is read to its end.
   */
  function IsValidEmail(s: string): bool
  {
    var at := WordEnd(s, 0);
    if at == 0 || at == |s| || s[at] != '@' then false
    else
      var dot := WordEnd(s, at + 1);
      if dot == at + 1 || dot == |s| || s[dot] != '.' then false
      else |s| - dot - 1 >= 2 && forall k | dot < k < |s| :: IsLetter(s[k])
  }

  /** The scan accepts exactly the strings the pattern matches in full. */
  lemma IsValidEmailMatchesPattern(s: string)
    ensures IsValidEmail(s) <==> EmailPattern(s)
  {
    if IsValidEmail(s) {
      var at := WordEnd(s, 0);
      var dot := WordEnd(s, at + 1);
      assert MatchesAt(s, at, dot);
    }
    if EmailPattern(s) {
      var at, dot :| MatchesAt(s, at, dot);
      WordEndAt(s, 0, at);
      WordEndAt(s, at + 1, dot);
    }
  }

  /** In a matching string every character but the at sign and the dot is a word character. */
  lemma OnlyOneAtAndDot(s: string, at: int, dot: int, k: int)
    requires MatchesAt(s, at, dot) && 0 <= k < |s| && k != at && k != dot
    ensures IsWordChar(s[k])
  {
  }

  /** A string with two dots is rejected: `\w` excludes the dot, so there is room for only one. */
  lemma TwoDotsRejected(s: string, p: int, q: int)
    requires 0 <= p < q < |s| && s[p] == '.' && s[q] == '.'
    ensures !IsValidEmail(s)
  {
    IsValidEmailMatchesPattern(s);
    if EmailPattern(s) {
      var at, dot :| MatchesAt(s, at, dot);
      if p != dot {
        OnlyOneAtAndDot(s, at, dot, p);
      } else {
        OnlyOneAtAndDot(s, at, dot, q);
      }
    }
  }

  /** A dot before the at sign is rejected: the local part is a single word. */
  lemma DotBeforeAtRejected(s: string, p: int, q: int)
    requires 0 <= p < q < |s| && s[p] == '.' && s[q] == '@'
    ensures !IsValidEmail(s)
  {
    IsValidEmailMatchesPattern(s);
    if EmailPattern(s) {
      var at, dot :| MatchesAt(s, at, dot);
      if p != dot {
        OnlyOneAtAndDot(s, at, dot, p);
      } else if q != at {
        OnlyOneAtAndDot(s, at, dot, q);
      }
    }
  }

  /** Three strings and their fate: a plain address passes, a dotted local part and a sub-domain do not. */
  lemma EmailExamples()
    ensures IsValidEmail("abc@def.com")
    ensures !IsValidEmail("a.b@c.com")
    ensures !IsValidEmail("a@b.c.com")
  {
    var ok := "abc@def.com";
    WordEndAt(ok, 0, 3);
    WordEndAt(ok, 4, 7);
    DotBeforeAtRejected("a.b@c.com", 1, 3);
    TwoDotsRejected("a@b.c.com", 3, 5);
  }

  /** What an e-mail edit does, in order: a failure toast, the profile update, leaving the editor. */
  datatype Effect = Toast(key: string) | UpdateSelfEmail(email: string) | PopEditor

  /**
   * The callback of the e-mail editor (`didClickEmail`), with `updateFails`
   * the outcome of the profile update: an invalid address only shows the
   * failure toast; a valid one is sent, then a failed update shows the same
   * toast and a successful one leaves the editor.
   */
  function EmailEditEffects(editText: string, updateFails: bool): (r: seq<Effect>)
    ensures !IsValidEmail(editText) ==> r == [Toast("change_email_failure")]
    ensures UpdateSelfEmail(editText) in r <==> IsValidEmail(editText)
    ensures forall e | e in r :: e.UpdateSelfEmail? ==> e.email == editText
    ensures PopEditor in r <==> IsValidEmail(editText) && !updateFails
  {
    if !IsValidEmail(editText) then [Toast("change_email_failure")]
    else [UpdateSelfEmail(editText)] + (if updateFails then [Toast("change_email_failure")] else [PopEditor])
  }

  /** The genders the profile update sends. */
  datatype Gender = Male | Female

  /** `didClickGender`: the sheet's first choice is male, every other choice female. */
  function GenderForChoice(value: int): (g: Gender)
    ensures g == Male <==> value == 0
  {
    if value == 0 then Male else Female
  }

  /**
   * The toast after a gender update: none on success, the network-error text
   * for a failed send, the gender failure text for any other error.
   */
  function GenderUpdateToast(errorCode: Option<int>, protocolSendFailed: int): (r: Option<string>)
    ensures r.None? <==> errorCode.None?
    ensures errorCode.Some? && errorCode.value == protocolSendFailed ==> r == Some("network_error")
    ensures errorCode.Some? && errorCode.value != protocolSendFailed ==> r == Some("change_gender_failure")
  {
    if errorCode.None? then None
    else if errorCode.value == protocolSendFailed then Some("network_error")
    else Some("change_gender_failure")
  }

  /** A cell of a settings section, by its row height. */
  datatype SettingCell = SettingCell(rowHeight: real)

  /** A section of the profile table (`SettingSectionModel`) with its cells. */
  datatype Section = Section(cellModels: seq<SettingCell>)

  /** `tableView(_:numberOfRowsInSection:)`: a section's cell count, 0 past the last section. */
  function NumberOfRows(sectionData: seq<Section>, section: nat): (n: nat)
    ensures section < |sectionData| ==> n == |sectionData[section].cellModels|
    ensures section >= |sectionData| ==> n == 0
  {
    if |sectionData| > section then |sectionData[section].cellModels| else 0
  }

  /** The height of a header that separates a section from the one above. */
  const SectionGap: real := 12.0

  /**
   * `tableView(_:heightForHeaderInSection:)`: the first section has no
   * header; a later one has the gap exactly when it has rows.
   */
  function HeaderHeight(sectionData: seq<Section>, section: nat): (h: real)
    ensures h == SectionGap <==> section != 0 && NumberOfRows(sectionData, section) > 0
    ensures h == 0.0 <==> section == 0 || NumberOfRows(sectionData, section) == 0
  {
    if section == 0 then 0.0
    else if |sectionData| > section && |sectionData[section].cellModels| > 0 then 12.0
    else 0.0
  }
}
