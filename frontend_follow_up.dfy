/**
 * The follow-up page of the `frontend` app: a check-in gated by an e-mail
 * check and a phone-number pattern, then a dashboard where the patient picks
 * a notification channel, chooses a report file and sends a concern. As in
 * `FollowUp`, each `async` handler is split at its `await`.
 */
module FrontendFollowUp {
  import opened Optional
  import opened Text
  import opened LanguageContext
  import FollowUp
  import EmailService

  /** The entries of the page's `translations` table that the handlers read. */
  datatype PageText = PageText(
    emailError: string,
    phoneError: string,
    preferencesSuccess: string,
    concernSuccess: string)

  /** `translations.en`, restricted to the entries above. */
  const EnglishText := PageText(
    "Please enter a valid email address",
    "Please enter a valid phone number",
    "Your notification preferences have been saved successfully!",
    "Your concern has been submitted successfully!")

  /** `translations.hi`, restricted to the entries above. */
  const HindiText := PageText(
    "कृपया एक वैध ईमेल पता दर्ज करें",
    "कृपया एक वैध फोन नंबर दर्ज करें",
    "आपकी सूचना प्राथमिकताएं सफलतापूर्वक सहेजी गई हैं!",
    "आपकी चिंता सफलतापूर्वक जमा हो गई है!")

  /** `translations[language]`. */
  function Strings(language: Language): PageText
  {
    match language
    case En => EnglishText
    case Hi => HindiText
  }

  /** The preferences toast's title, the same literal in both languages. */
  const PreferencesTitle := "Success!"

  // ---------------------------------------------------------------------------
  // validateEmail: the same expression as the other follow-up page's, so the
  // model uses `FollowUp.ValidateEmail` for both.

  /** Every address the mail service would send to passes the page's check. */
  lemma BackendValidPassesPage(email: string)
    requires EmailService.ValidateEmail(email)
    ensures FollowUp.ValidateEmail(email)
  {
    if EmailService.MatchesAddress(email) {
      var at, dot :| EmailService.SplitsAt(email, at, dot);
      assert email[at] == '@' && email[dot] == '.';
    } else {
      var s := email[..|email| - 1];
      var at, dot :| EmailService.SplitsAt(s, at, dot);
      assert email[at] == s[at] == '@' && email[dot] == s[dot] == '.';
    }
  }

  /** The converse fails: the page lets in an address whose only dot precedes the `@`,
    * which the mail service refuses. */
  lemma PagePassesBackendInvalid()
    ensures FollowUp.ValidateEmail("a.b@c")
    ensures !EmailService.ValidateEmail("a.b@c")
  {
    FollowUp.ValidateEmailExamples();
    var s := "a.b@c";
    IndexOfUnique(s, '@', 3);
    assert s[2..] == "b@c";
    LastIndexOfUnique(s, '.', 1);
  }

  // ---------------------------------------------------------------------------
  // validatePhone

  /** `[\s-]`: what `phone.replace(/[\s-]/g, '')` deletes. */
  predicate IsPhoneFiller(c: char) { IsJsWhitespace(c) || c == '-' }

  /** `[-\s\.]`: the optional separator between digit groups. */
  predicate IsSeparator(c: char) { c == '-' || IsJsWhitespace(c) || c == '.' }

  predicate IsNotDigit(c: char) { !IsAsciiDigit(c) }

  /** The digits of `s`, in order. */
  function Digits(s: string): string { RemoveAll(s, IsNotDigit) }

  /** One way of reading a string as `[\+]?[(]?[0-9]{3}[)]?[-\s\.]?[0-9]{3}[-\s\.]?[0-9]{4,6}`:
    * which optional pieces are there, and the three digit groups. */
  datatype PhoneParts = PhoneParts(
    plus: bool,
    open: bool,
    area: string,
    close: bool,
    sep1: Option<char>,
    exchange: string,
    sep2: Option<char>,
    line: string)

  /** The reading before anything is read. */
  const NoParts := PhoneParts(false, false, "", false, None, "", None, "")

  /** The pattern's eight pieces are numbered 0 to 7; the constraints on pieces `k` to 7. */
  predicate WellFormedFrom(k: nat, p: PhoneParts)
  {
    && (k <= 2 ==> |p.area| == 3 && AllDigits(p.area))
    && (k <= 4 ==> (p.sep1.Some? ==> IsSeparator(p.sep1.value)))
    && (k <= 5 ==> |p.exchange| == 3 && AllDigits(p.exchange))
    && (k <= 6 ==> (p.sep2.Some? ==> IsSeparator(p.sep2.value)))
    && 4 <= |p.line| <= 6 && AllDigits(p.line)
  }

  predicate WellFormed(p: PhoneParts) { WellFormedFrom(0, p) }

  function Opt(present: bool, c: char): string { if present then [c] else [] }

  function OptSep(sep: Option<char>): string { if sep.Some? then [sep.value] else [] }

  /** The text of piece `k` of a reading. */
  function Piece(k: nat, p: PhoneParts): string
  {
    match k
    case 0 => Opt(p.plus, '+')
    case 1 => Opt(p.open, '(')
    case 2 => p.area
    case 3 => Opt(p.close, ')')
    case 4 => OptSep(p.sep1)
    case 5 => p.exchange
    case 6 => OptSep(p.sep2)
    case _ => p.line
  }

  /** The text of pieces `k` to 7. */
  function Suffix(k: nat, p: PhoneParts): string
    requires k <= 7
    decreases 7 - k
  {
    if k == 7 then p.line else Piece(k, p) + Suffix(k + 1, p)
  }

  /** The text a reading spells. */
  function Render(p: PhoneParts): string { Suffix(0, p) }

  /** The pattern, anchored by `^` and `$`, matches all of `s`. */
  ghost predicate MatchesPhonePattern(s: string)
  {
    exists p :: WellFormed(p) && Render(p) == s
  }

  /** An optional character. */
  function TakeChar(s: string, c: char): (r: (bool, string))
    ensures s == Opt(r.0, c) + r.1
  {
    if |s| > 0 && s[0] == c then (true, s[1..]) else (false, s)
  }

  /** An optional separator. */
  function TakeSeparator(s: string): (r: (Option<char>, string))
    ensures s == OptSep(r.0) + r.1
    ensures r.0.Some? ==> IsSeparator(r.0.value)
  {
    if |s| > 0 && IsSeparator(s[0]) then (Some(s[0]), s[1..]) else (None, s)
  }

  /** Exactly three digits. */
  function TakeDigits(s: string): (r: Option<(string, string)>)
    ensures r.Some? ==> |r.value.0| == 3 && AllDigits(r.value.0) && s == r.value.0 + r.value.1
  {
    if |s| >= 3 && AllDigits(s[..3]) then Some((s[..3], s[3..])) else None
  }

  /** Piece `k` (0 to 6) read off the front of `s` into `acc`: an optional piece is taken
    * when the next character is that piece, a digit group when three digits come next. */
  function Step(k: nat, acc: PhoneParts, s: string): Option<(PhoneParts, string)>
  {
    match k
    case 0 => var (b, r) := TakeChar(s, '+'); Some((acc.(plus := b), r))
    case 1 => var (b, r) := TakeChar(s, '('); Some((acc.(open := b), r))
    case 2 => (match TakeDigits(s) case None => None case Some((d, r)) => Some((acc.(area := d), r)))
    case 3 => var (b, r) := TakeChar(s, ')'); Some((acc.(close := b), r))
    case 4 => var (o, r) := TakeSeparator(s); Some((acc.(sep1 := o), r))
    case 5 => (match TakeDigits(s) case None => None case Some((d, r)) => Some((acc.(exchange := d), r)))
    case 6 => var (o, r) := TakeSeparator(s); Some((acc.(sep2 := o), r))
    case _ => None
  }

  /** The match of pieces `k` to 7 against all of `s`, found left to right; `acc` holds the
    * pieces before `k`. No piece can start with what follows it, so taking an optional
    * piece whenever it is there never loses a match. */
  function ParseFrom(k: nat, acc: PhoneParts, s: string): Option<PhoneParts>
    requires k <= 7
    decreases 7 - k
  {
    if k == 7 then
      if 4 <= |s| <= 6 && AllDigits(s) then Some(acc.(line := s)) else None
    else
      match Step(k, acc, s)
      case None => None
      case Some((next, r)) => ParseFrom(k + 1, next, r)
  }

  function ParsePhone(s: string): Option<PhoneParts> { ParseFrom(0, NoParts, s) }

  /** `acc` and `p` agree on the pieces before `k`. */
  predicate Agrees(k: nat, acc: PhoneParts, p: PhoneParts)
  {
    && (k > 0 ==> acc.plus == p.plus)
    && (k > 1 ==> acc.open == p.open)
    && (k > 2 ==> acc.area == p.area)
    && (k > 3 ==> acc.close == p.close)
    && (k > 4 ==> acc.sep1 == p.sep1)
    && (k > 5 ==> acc.exchange == p.exchange)
    && (k > 6 ==> acc.sep2 == p.sep2)
  }

  /** The constraint on piece `k` alone. */
  predicate PieceOk(k: nat, p: PhoneParts)
  {
    match k
    case 2 => |p.area| == 3 && AllDigits(p.area)
    case 4 => p.sep1.Some? ==> IsSeparator(p.sep1.value)
    case 5 => |p.exchange| == 3 && AllDigits(p.exchange)
    case 6 => p.sep2.Some? ==> IsSeparator(p.sep2.value)
    case _ => true
  }

  /** A step reads a well-formed piece `k` off the front, and keeps the pieces before it. */
  lemma StepSound(k: nat, acc: PhoneParts, s: string)
    requires k < 7 && Step(k, acc, s).Some?
    ensures var (next, r) := Step(k, acc, s).value; s == Piece(k, next) + r && Agrees(k, acc, next) && PieceOk(k, next)
  {
  }

  /** Piece `k` of `p` and the piece after it (if `k` is not the last). */
  lemma {:induction false} ParseFromSound(k: nat, acc: PhoneParts, s: string)
    requires k <= 7 && ParseFrom(k, acc, s).Some?
    ensures var q := ParseFrom(k, acc, s).value; Agrees(k, acc, q) && WellFormedFrom(k, q) && Suffix(k, q) == s
    decreases 7 - k
  {
    if k < 7 {
      var (next, r) := Step(k, acc, s).value;
      StepSound(k, acc, s);
      ParseFromSound(k + 1, next, r);
      var q := ParseFrom(k, acc, s).value;
      assert Piece(k, q) == Piece(k, next) && PieceOk(k, q) by {
        SamePiece(k, next, q);
      }
    }
  }

  /** Readings that agree up to and including piece `k` have the same piece `k`. */
  lemma SamePiece(k: nat, a: PhoneParts, b: PhoneParts)
    requires k < 7 && Agrees(k + 1, a, b)
    ensures Piece(k, a) == Piece(k, b) && PieceOk(k, a) == PieceOk(k, b)
  {
  }

  lemma TakeCharOpt(present: bool, c: char, rest: string)
    requires |rest| > 0 && rest[0] != c
    ensures TakeChar(Opt(present, c) + rest, c) == (present, rest)
  {
    if present {
      assert (Opt(present, c) + rest)[1..] == rest;
    } else {
      assert Opt(present, c) + rest == rest;
    }
  }

  lemma TakeSeparatorOpt(sep: Option<char>, rest: string)
    requires sep.Some? ==> IsSeparator(sep.value)
    requires |rest| > 0 && !IsSeparator(rest[0])
    ensures TakeSeparator(OptSep(sep) + rest) == (sep, rest)
  {
    if sep.Some? {
      assert (OptSep(sep) + rest)[1..] == rest;
    } else {
      assert OptSep(sep) + rest == rest;
    }
  }

  lemma TakeDigitsOf(digits: string, rest: string)
    requires |digits| == 3 && AllDigits(digits)
    ensures TakeDigits(digits + rest) == Some((digits, rest))
  {
    assert (digits + rest)[..3] == digits && (digits + rest)[3..] == rest;
  }

  /** What pieces `k` to 7 of a reading can start with. */
  lemma SuffixStart(k: nat, p: PhoneParts)
    requires 1 <= k <= 7 && WellFormedFrom(k, p)
    ensures |Suffix(k, p)| > 0
    ensures k == 1 ==> Suffix(k, p)[0] == '(' || IsAsciiDigit(Suffix(k, p)[0])
    ensures k == 2 || k == 5 || k == 7 ==> IsAsciiDigit(Suffix(k, p)[0])
    ensures k == 4 ==> IsSeparator(Suffix(k, p)[0]) || IsAsciiDigit(Suffix(k, p)[0])
  {
    if k == 1 || k == 4 {
      if Piece(k, p) == [] {
        assert Suffix(k, p) == Suffix(k + 1, p);
        assert Suffix(k + 1, p) == Piece(k + 1, p) + Suffix(k + 2, p);
      }
    } else if k == 2 || k == 5 {
      assert Suffix(k, p) == Piece(k, p) + Suffix(k + 1, p);
    }
  }

  /** `acc` with piece `k` taken from `p`. */
  function Adopt(k: nat, acc: PhoneParts, p: PhoneParts): PhoneParts
  {
    match k
    case 0 => acc.(plus := p.plus)
    case 1 => acc.(open := p.open)
    case 2 => acc.(area := p.area)
    case 3 => acc.(close := p.close)
    case 4 => acc.(sep1 := p.sep1)
    case 5 => acc.(exchange := p.exchange)
    case 6 => acc.(sep2 := p.sep2)
    case _ => acc.(line := p.line)
  }

  /** On the text of a reading, a step reads exactly that reading's piece `k`: the piece
    * after an optional one never starts with the optional one's character. */
  lemma StepComplete(k: nat, acc: PhoneParts, p: PhoneParts)
    requires k < 7 && WellFormedFrom(k, p)
    ensures Step(k, acc, Suffix(k, p)) == Some((Adopt(k, acc, p), Suffix(k + 1, p)))
  {
    if k == 2 || k == 5 {
      StepCompleteGroup(k, acc, p);
    } else if k == 4 || k == 6 {
      StepCompleteSeparator(k, acc, p);
    } else {
      StepCompleteChar(k, acc, p);
    }
  }

  lemma StepCompleteGroup(k: nat, acc: PhoneParts, p: PhoneParts)
    requires (k == 2 || k == 5) && WellFormedFrom(k, p)
    ensures Step(k, acc, Suffix(k, p)) == Some((Adopt(k, acc, p), Suffix(k + 1, p)))
  {
    assert Suffix(k, p) == Piece(k, p) + Suffix(k + 1, p);
    TakeDigitsOf(Piece(k, p), Suffix(k + 1, p));
  }

  lemma StepCompleteSeparator(k: nat, acc: PhoneParts, p: PhoneParts)
    requires (k == 4 || k == 6) && WellFormedFrom(k, p)
    ensures Step(k, acc, Suffix(k, p)) == Some((Adopt(k, acc, p), Suffix(k + 1, p)))
  {
    var rest := Suffix(k + 1, p);
    assert Suffix(k, p) == Piece(k, p) + rest;
    SuffixStart(k + 1, p);
    if k == 4 {
      TakeSeparatorOpt(p.sep1, rest);
    } else {
      TakeSeparatorOpt(p.sep2, rest);
    }
  }

  lemma StepCompleteChar(k: nat, acc: PhoneParts, p: PhoneParts)
    requires (k == 0 || k == 1 || k == 3) && WellFormedFrom(k, p)
    ensures Step(k, acc, Suffix(k, p)) == Some((Adopt(k, acc, p), Suffix(k + 1, p)))
  {
    var rest := Suffix(k + 1, p);
    assert Suffix(k, p) == Piece(k, p) + rest;
    SuffixStart(k + 1, p);
    if k == 0 {
      TakeCharOpt(p.plus, '+', rest);
    } else if k == 1 {
      TakeCharOpt(p.open, '(', rest);
    } else {
      TakeCharOpt(p.close, ')', rest);
    }
  }

  /** Taking piece `k` from a reading extends the agreement by one piece. */
  lemma AdoptAgrees(k: nat, acc: PhoneParts, p: PhoneParts)
    requires k < 7 && Agrees(k, acc, p)
    ensures Agrees(k + 1, Adopt(k, acc, p), p)
  {
  }

  /** Agreement on every piece but the last, plus the last one, is equality. */
  lemma AdoptLast(acc: PhoneParts, p: PhoneParts)
    requires Agrees(7, acc, p)
    ensures acc.(line := p.line) == p
  {
  }

  /** The parser finds every reading, and there is only one: from piece `k` on, the text
    * of a reading determines where each piece is. */
  lemma {:induction false} ParseFromComplete(k: nat, acc: PhoneParts, p: PhoneParts)
    requires k <= 7 && WellFormedFrom(k, p) && Agrees(k, acc, p)
    ensures ParseFrom(k, acc, Suffix(k, p)) == Some(p)
    decreases 7 - k
  {
    if k == 7 {
      AdoptLast(acc, p);
    } else {
      var next := Adopt(k, acc, p);
      StepComplete(k, acc, p);
      AdoptAgrees(k, acc, p);
      ParseFromComplete(k + 1, next, p);
    }
  }

  /** `validatePhone`: the pattern, applied after deleting whitespace and dashes. */
  function ValidatePhone(phone: string): bool
  {
    ParsePhone(RemoveAll(phone, IsPhoneFiller)).Some?
  }

  /** The parser succeeds exactly on the strings the pattern matches. */
  lemma ParseMatches(s: string)
    ensures ParsePhone(s).Some? <==> MatchesPhonePattern(s)
  {
    if ParsePhone(s).Some? {
      ParseFromSound(0, NoParts, s);
      assert WellFormed(ParsePhone(s).value);
    }
    if p :| WellFormed(p) && Render(p) == s {
      ParseFromComplete(0, NoParts, p);
    }
  }

  /** A string the pattern matches is read in exactly one way. */
  lemma ReadingUnique(p: PhoneParts, q: PhoneParts)
    requires WellFormed(p) && WellFormed(q) && Render(p) == Render(q)
    ensures p == q
  {
    ParseFromComplete(0, NoParts, p);
    ParseFromComplete(0, NoParts, q);
  }

  /** A number passes exactly when the pattern matches all of it once whitespace and
    * dashes are deleted. */
  lemma ValidatePhoneMatches(phone: string)
    ensures ValidatePhone(phone) <==> MatchesPhonePattern(RemoveAll(phone, IsPhoneFiller))
  {
    ParseMatches(RemoveAll(phone, IsPhoneFiller));
  }

  /** The digits of pieces `k` to 7 are those of piece `k`, a digit group or an optional
    * non-digit, followed by those of the rest. */
  lemma DigitsStep(k: nat, p: PhoneParts)
    requires k < 7 && WellFormedFrom(k, p)
    ensures Digits(Suffix(k, p)) == (if k == 2 || k == 5 then Piece(k, p) else "") + Digits(Suffix(k + 1, p))
  {
    var rest := Suffix(k + 1, p);
    assert Suffix(k, p) == Piece(k, p) + rest;
    if k == 2 || k == 5 {
      KeepDigits(Piece(k, p), rest);
    } else {
      DropPiece(Piece(k, p), rest);
    }
  }

  /** The digit groups of a reading from piece `k` on. */
  function GroupsFrom(k: nat, p: PhoneParts): string
  {
    if k <= 2 then p.area + (p.exchange + p.line)
    else if k <= 5 then p.exchange + p.line
    else p.line
  }

  /** The digits of pieces `k` to 7 of a reading are its digit groups from `k` on. */
  lemma {:induction false} DigitsOfSuffix(k: nat, p: PhoneParts)
    requires k <= 7 && WellFormedFrom(k, p)
    ensures Digits(Suffix(k, p)) == GroupsFrom(k, p)
    decreases 7 - k
  {
    if k == 7 {
      RemoveAllNone(p.line, IsNotDigit);
    } else {
      DigitsOfSuffix(k + 1, p);
      DigitsStep(k, p);
    }
  }

  /** The digits of a reading are its three groups. */
  lemma DigitsOfRender(p: PhoneParts)
    requires WellFormed(p)
    ensures Digits(Render(p)) == p.area + (p.exchange + p.line)
  {
    DigitsOfSuffix(0, p);
  }

  /** A piece of at most one non-digit contributes no digits. */
  lemma DropPiece(piece: string, rest: string)
    requires |piece| <= 1 && forall i :: 0 <= i < |piece| ==> !IsAsciiDigit(piece[i])
    ensures Digits(piece + rest) == Digits(rest)
  {
    RemoveAllAppend(piece, rest, IsNotDigit);
    if |piece| == 1 {
      assert piece[1..] == [];
    }
  }

  lemma KeepDigits(digits: string, rest: string)
    requires AllDigits(digits)
    ensures Digits(digits + rest) == digits + Digits(rest)
  {
    RemoveAllAppend(digits, rest, IsNotDigit);
    RemoveAllNone(digits, IsNotDigit);
  }

  /** Deleting whitespace and dashes keeps every digit. */
  lemma DigitsIgnoreFillers(phone: string)
    ensures Digits(RemoveAll(phone, IsPhoneFiller)) == Digits(phone)
  {
    RemoveAllAbsorb(phone, IsPhoneFiller, IsNotDigit);
  }

  /** A reading spells 3 + 3 + 4 to 6 digits. */
  lemma ReadingDigitCount(p: PhoneParts)
    requires WellFormed(p)
    ensures 10 <= |Digits(Render(p))| <= 12
  {
    DigitsOfRender(p);
  }

  /** An accepted number holds between 10 and 12 digits. */
  lemma ValidPhoneDigitCount(phone: string)
    requires ValidatePhone(phone)
    ensures 10 <= |Digits(phone)| <= 12
  {
    var cleaned := RemoveAll(phone, IsPhoneFiller);
    ParseFromSound(0, NoParts, cleaned);
    ReadingDigitCount(ParsePhone(cleaned).value);
    DigitsIgnoreFillers(phone);
  }

  /** A character the pattern names outright. */
  predicate IsPatternChar(c: char)
  {
    IsAsciiDigit(c) || c == '(' || c == ')' || c == '+' || c == '.'
  }

  /** A reading whose separators, if any, are dots. */
  predicate OnlyDots(p: PhoneParts)
  {
    (p.sep1.Some? ==> p.sep1.value == '.') && (p.sep2.Some? ==> p.sep2.value == '.')
  }

  /** Each piece of such a reading is made of pattern characters. */
  lemma PiecePatternChars(k: nat, p: PhoneParts)
    requires k <= 7 && WellFormedFrom(k, p) && OnlyDots(p)
    ensures forall i :: 0 <= i < |Piece(k, p)| ==> IsPatternChar(Piece(k, p)[i])
  {
  }

  /** So such a reading spells nothing but pattern characters. */
  lemma {:induction false} SuffixPatternChars(k: nat, p: PhoneParts)
    requires k <= 7 && WellFormedFrom(k, p) && OnlyDots(p)
    ensures forall i :: 0 <= i < |Suffix(k, p)| ==> IsPatternChar(Suffix(k, p)[i])
    decreases 7 - k
  {
    if k < 7 {
      SuffixPatternChars(k + 1, p);
      PiecePatternChars(k, p);
      var piece, rest := Piece(k, p), Suffix(k + 1, p);
      assert Suffix(k, p) == piece + rest;
      forall i | 0 <= i < |piece + rest|
        ensures IsPatternChar((piece + rest)[i])
      {
        if i >= |piece| {
          assert (piece + rest)[i] == rest[i - |piece|];
        }
      }
    }
  }

  /** A reading with dots or nothing between the groups is accepted as spelled: there is
    * nothing for the clean-up to delete. */
  lemma AcceptsDottedReading(p: PhoneParts)
    requires WellFormed(p) && OnlyDots(p)
    ensures ValidatePhone(Render(p))
  {
    SuffixPatternChars(0, p);
    RemoveAllNone(Render(p), IsPhoneFiller);
    ParseFromComplete(0, NoParts, p);
  }

  /** Three digit groups that fit the pattern. */
  predicate DigitGroups(area: string, exchange: string, line: string)
  {
    |area| == 3 && AllDigits(area) && |exchange| == 3 && AllDigits(exchange) && 4 <= |line| <= 6 && AllDigits(line)
  }

  /** A reading spells its eight pieces one after the other. */
  lemma RenderSpelled(p: PhoneParts)
    ensures Render(p) == Opt(p.plus, '+') + (Opt(p.open, '(') + (p.area + (Opt(p.close, ')') +
      (OptSep(p.sep1) + (p.exchange + (OptSep(p.sep2) + p.line))))))
  {
    assert Suffix(4, p) == OptSep(p.sep1) + (p.exchange + (OptSep(p.sep2) + p.line));
  }

  lemma UnclosedSpelling(area: string, exchange: string, line: string)
    ensures "(" + area + exchange + line == Render(PhoneParts(false, true, area, false, None, exchange, None, line))
  {
    RenderSpelled(PhoneParts(false, true, area, false, None, exchange, None, line));
  }

  lemma UnopenedSpelling(area: string, exchange: string, line: string)
    ensures area + ")" + exchange + line == Render(PhoneParts(false, false, area, true, None, exchange, None, line))
  {
    RenderSpelled(PhoneParts(false, false, area, true, None, exchange, None, line));
  }

  lemma DottedSpelling(area: string, exchange: string, line: string)
    ensures "+" + area + "." + exchange + "." + line
      == Render(PhoneParts(true, false, area, false, Some('.'), exchange, Some('.'), line))
  {
    RenderSpelled(PhoneParts(true, false, area, false, Some('.'), exchange, Some('.'), line));
    AppendRegroup("+", area, ".", exchange, ".", line);
  }

  /** The parentheses are optional one by one, so a lone opening one is accepted... */
  lemma AcceptsUnclosedParenthesis(area: string, exchange: string, line: string)
    requires DigitGroups(area, exchange, line)
    ensures ValidatePhone("(" + area + exchange + line)
  {
    UnclosedSpelling(area, exchange, line);
    AcceptsDottedReading(PhoneParts(false, true, area, false, None, exchange, None, line));
  }

  /** ... and so is a lone closing one. */
  lemma AcceptsUnopenedParenthesis(area: string, exchange: string, line: string)
    requires DigitGroups(area, exchange, line)
    ensures ValidatePhone(area + ")" + exchange + line)
  {
    UnopenedSpelling(area, exchange, line);
    AcceptsDottedReading(PhoneParts(false, false, area, true, None, exchange, None, line));
  }

  /** Dots may stand between the groups, after an international `+`. */
  lemma AcceptsDottedInternational(area: string, exchange: string, line: string)
    requires DigitGroups(area, exchange, line)
    ensures ValidatePhone("+" + area + "." + exchange + "." + line)
  {
    DottedSpelling(area, exchange, line);
    AcceptsDottedReading(PhoneParts(true, false, area, false, Some('.'), exchange, Some('.'), line));
  }

  /** Nine digits are too few. */
  lemma ValidatePhoneRejectsShort()
    ensures !ValidatePhone("555123456")
  {
    var s := "555123456";
    if ValidatePhone(s) {
      ValidPhoneDigitCount(s);
      RemoveAllNone(s, IsNotDigit);
    }
  }

  // ---------------------------------------------------------------------------
  // Toasts

  /** The toast a confirmed preference shows. */
  function PreferencesToast(language: Language): (t: FollowUp.Toast)
    ensures t.title == Some(PreferencesTitle) && t.description == Strings(language).preferencesSuccess
  {
    FollowUp.Toast(Some(PreferencesTitle), Strings(language).preferencesSuccess, FollowUp.Default)
  }

  /** The concern toast as written: its title reads `text.successTitle`, an entry neither
    * of the page's tables defines, so the title is `undefined`. */
  function ConcernToastAsWritten(language: Language): (t: FollowUp.Toast)
    ensures t.title.None? && t.description == Strings(language).concernSuccess
  {
    FollowUp.Toast(None, Strings(language).concernSuccess, FollowUp.Default)
  }

  /** The concern toast as intended: titled with the `successTitle` entry the other
    * follow-up page defines for the same language. */
  function ConcernToast(language: Language): (t: FollowUp.Toast)
    ensures t.title == Some(FollowUp.Strings(language).successTitle)
    ensures t.description == Strings(language).concernSuccess
  {
    FollowUp.Toast(Some(FollowUp.Strings(language).successTitle), Strings(language).concernSuccess, FollowUp.Default)
  }

  /** Every toast carries a title. */
  predicate AllTitled(toasts: seq<FollowUp.Toast>)
  {
    forall i :: 0 <= i < |toasts| ==> toasts[i].title.Some?
  }

  /** As written, a completed concern submission shows an untitled toast, unlike every
    * other toast on the page. */
  lemma ConcernToastUntitled(language: Language, toasts: seq<FollowUp.Toast>)
    ensures !AllTitled(toasts + [ConcernToastAsWritten(language)])
  {
    assert (toasts + [ConcernToastAsWritten(language)])[|toasts|].title.None?;
  }

  /** Showing a titled toast keeps every toast titled. */
  lemma AppendTitled(toasts: seq<FollowUp.Toast>, t: FollowUp.Toast)
    requires AllTitled(toasts) && t.title.Some?
    ensures AllTitled(toasts + [t])
  {
  }

  /** The page's state (`useState` hooks) and its handlers. */
  class FrontendFollowUpPage {
    var isLoggedIn: bool
    var patientName: string
    var patientEmail: string
    var patientPhone: string
    var emailError: string
    var phoneError: string
    var notificationPreference: string
    var isConfirmingPreference: bool
    var fileName: string
    var concern: string
    var isSubmittingConcern: bool
    /** Every toast shown so far, oldest first. */
    var toasts: seq<FollowUp.Toast>

    /** What the page keeps true: every toast it has shown has a title. */
    predicate Valid()
      reads this
    {
      AllTitled(toasts)
    }

    constructor()
      ensures Valid()
      ensures !isLoggedIn && patientName == "" && patientEmail == "" && patientPhone == ""
      ensures emailError == "" && phoneError == "" && notificationPreference == ""
      ensures !isConfirmingPreference && fileName == "" && concern == "" && !isSubmittingConcern
      ensures toasts == []
    {
      isLoggedIn := false;
      patientName := "";
      patientEmail := "";
      patientPhone := "";
      emailError := "";
      phoneError := "";
      notificationPreference := "";
      isConfirmingPreference := false;
      fileName := "";
      concern := "";
      isSubmittingConcern := false;
      toasts := [];
    }

    /** The name field's `onChange`. */
    method SetPatientName(name: string)
      modifies this
      ensures patientName == name
      ensures isLoggedIn == old(isLoggedIn) && patientEmail == old(patientEmail) && patientPhone == old(patientPhone)
      ensures emailError == old(emailError) && phoneError == old(phoneError)
      ensures notificationPreference == old(notificationPreference) && isConfirmingPreference == old(isConfirmingPreference)
      ensures fileName == old(fileName) && concern == old(concern) && isSubmittingConcern == old(isSubmittingConcern)
      ensures toasts == old(toasts)
    {
      patientName := name;
    }

    /** The e-mail field's `onChange`: editing the address clears its error. */
    method SetPatientEmail(email: string)
      modifies this
      ensures patientEmail == email && emailError == ""
      ensures isLoggedIn == old(isLoggedIn) && patientName == old(patientName) && patientPhone == old(patientPhone)
      ensures phoneError == old(phoneError)
      ensures notificationPreference == old(notificationPreference) && isConfirmingPreference == old(isConfirmingPreference)
      ensures fileName == old(fileName) && concern == old(concern) && isSubmittingConcern == old(isSubmittingConcern)
      ensures toasts == old(toasts)
    {
      patientEmail := email;
      emailError := "";
    }

    /** The phone field's `onChange`: editing the number clears its error. */
    method SetPatientPhone(phone: string)
      modifies this
      ensures patientPhone == phone && phoneError == ""
      ensures isLoggedIn == old(isLoggedIn) && patientName == old(patientName) && patientEmail == old(patientEmail)
      ensures emailError == old(emailError)
      ensures notificationPreference == old(notificationPreference) && isConfirmingPreference == old(isConfirmingPreference)
      ensures fileName == old(fileName) && concern == old(concern) && isSubmittingConcern == old(isSubmittingConcern)
      ensures toasts == old(toasts)
    {
      patientPhone := phone;
      phoneError := "";
    }

    /** The submit button is disabled until all three fields hold something. */
    function CheckInEnabled(): (enabled: bool)
      reads this
      ensures enabled <==> patientName != "" && patientEmail != "" && patientPhone != ""
    {
      patientName != "" && patientEmail != "" && patientPhone != ""
    }

    /** `handleCheckIn`: both fields are checked, each failure sets its own error (there is
      * no early exit between them), and only when both pass are the errors cleared and the
      * patient let in. */
    method HandleCheckIn(language: Language)
      modifies this
      ensures FollowUp.ValidateEmail(old(patientEmail)) && ValidatePhone(old(patientPhone)) ==>
        isLoggedIn && emailError == "" && phoneError == ""
      ensures !FollowUp.ValidateEmail(old(patientEmail)) ==> emailError == Strings(language).emailError
      ensures !ValidatePhone(old(patientPhone)) ==> phoneError == Strings(language).phoneError
      ensures FollowUp.ValidateEmail(old(patientEmail)) && !ValidatePhone(old(patientPhone)) ==> emailError == old(emailError)
      ensures ValidatePhone(old(patientPhone)) && !FollowUp.ValidateEmail(old(patientEmail)) ==> phoneError == old(phoneError)
      ensures !(FollowUp.ValidateEmail(old(patientEmail)) && ValidatePhone(old(patientPhone))) ==> isLoggedIn == old(isLoggedIn)
      ensures patientName == old(patientName) && patientEmail == old(patientEmail) && patientPhone == old(patientPhone)
      ensures notificationPreference == old(notificationPreference) && isConfirmingPreference == old(isConfirmingPreference)
      ensures fileName == old(fileName) && concern == old(concern) && isSubmittingConcern == old(isSubmittingConcern)
      ensures toasts == old(toasts)
    {
      var emailOk := FollowUp.ValidateEmail(patientEmail);
      var phoneOk := ValidatePhone(patientPhone);
      var hasError := false;
      if !emailOk {
        emailError := Strings(language).emailError;
        hasError := true;
      }
      if !phoneOk {
        phoneError := Strings(language).phoneError;
        hasError := true;
      }
      if hasError {
        return;
      }
      emailError := "";
      phoneError := "";
      isLoggedIn := true;
    }

    /** The `RadioGroup`'s `onValueChange` (`"email"`, `"phone"` or `"both"`). */
    method SetNotificationPreference(value: string)
      modifies this
      ensures notificationPreference == value
      ensures isLoggedIn == old(isLoggedIn) && patientName == old(patientName) && patientEmail == old(patientEmail)
      ensures patientPhone == old(patientPhone) && emailError == old(emailError) && phoneError == old(phoneError)
      ensures isConfirmingPreference == old(isConfirmingPreference)
      ensures fileName == old(fileName) && concern == old(concern) && isSubmittingConcern == old(isSubmittingConcern)
      ensures toasts == old(toasts)
    {
      notificationPreference := value;
    }

    /** `handleConfirmPreferences` up to its `await`: without a preference it does nothing. */
    method StartConfirmPreferences() returns (started: bool)
      modifies this
      ensures started <==> old(notificationPreference) != ""
      ensures started ==> isConfirmingPreference
      ensures !started ==> isConfirmingPreference == old(isConfirmingPreference)
      ensures isLoggedIn == old(isLoggedIn) && patientName == old(patientName) && patientEmail == old(patientEmail)
      ensures patientPhone == old(patientPhone) && emailError == old(emailError) && phoneError == old(phoneError)
      ensures notificationPreference == old(notificationPreference)
      ensures fileName == old(fileName) && concern == old(concern) && isSubmittingConcern == old(isSubmittingConcern)
      ensures toasts == old(toasts)
    {
      if notificationPreference == "" {
        return false;
      }
      isConfirmingPreference := true;
      started := true;
    }

    /** The rest of `handleConfirmPreferences`: the success toast, then the flag drops. */
    method FinishConfirmPreferences(language: Language)
      requires Valid()
      modifies this
      ensures Valid()
      ensures toasts == old(toasts) + [PreferencesToast(language)]
      ensures !isConfirmingPreference
      ensures isLoggedIn == old(isLoggedIn) && patientName == old(patientName) && patientEmail == old(patientEmail)
      ensures patientPhone == old(patientPhone) && emailError == old(emailError) && phoneError == old(phoneError)
      ensures notificationPreference == old(notificationPreference)
      ensures fileName == old(fileName) && concern == old(concern) && isSubmittingConcern == old(isSubmittingConcern)
    {
      AppendTitled(toasts, PreferencesToast(language));
      toasts := toasts + [PreferencesToast(language)];
      isConfirmingPreference := false;
    }

    /** `handleFileChange`: `files` are the names of the chosen files; the first one, if
      * any, is shown. */
    method HandleFileChange(files: seq<string>)
      modifies this
      ensures |files| > 0 ==> fileName == files[0]
      ensures |files| == 0 ==> fileName == old(fileName)
      ensures isLoggedIn == old(isLoggedIn) && patientName == old(patientName) && patientEmail == old(patientEmail)
      ensures patientPhone == old(patientPhone) && emailError == old(emailError) && phoneError == old(phoneError)
      ensures notificationPreference == old(notificationPreference) && isConfirmingPreference == old(isConfirmingPreference)
      ensures concern == old(concern) && isSubmittingConcern == old(isSubmittingConcern)
      ensures toasts == old(toasts)
    {
      if |files| > 0 {
        fileName := files[0];
      }
    }

    /** The concern box's `onChange`. */
    method SetConcern(text: string)
      modifies this
      ensures concern == text
      ensures isLoggedIn == old(isLoggedIn) && patientName == old(patientName) && patientEmail == old(patientEmail)
      ensures patientPhone == old(patientPhone) && emailError == old(emailError) && phoneError == old(phoneError)
      ensures notificationPreference == old(notificationPreference) && isConfirmingPreference == old(isConfirmingPreference)
      ensures fileName == old(fileName) && isSubmittingConcern == old(isSubmittingConcern)
      ensures toasts == old(toasts)
    {
      concern := text;
    }

    /** `handleSubmitConcern` up to its `await`: a blank concern is ignored. */
    method StartSubmitConcern() returns (started: bool)
      modifies this
      ensures started <==> !IsBlank(old(concern))
      ensures started ==> isSubmittingConcern
      ensures !started ==> isSubmittingConcern == old(isSubmittingConcern)
      ensures isLoggedIn == old(isLoggedIn) && patientName == old(patientName) && patientEmail == old(patientEmail)
      ensures patientPhone == old(patientPhone) && emailError == old(emailError) && phoneError == old(phoneError)
      ensures notificationPreference == old(notificationPreference) && isConfirmingPreference == old(isConfirmingPreference)
      ensures fileName == old(fileName) && concern == old(concern)
      ensures toasts == old(toasts)
    {
      if IsBlank(concern) {
        return false;
      }
      isSubmittingConcern := true;
      started := true;
    }

    /** The rest of `handleSubmitConcern`, with the toast titled as intended: the box is
      * emptied and the flag dropped. */
    method FinishSubmitConcern(language: Language)
      requires Valid()
      modifies this
      ensures Valid()
      ensures toasts == old(toasts) + [ConcernToast(language)]
      ensures concern == "" && !isSubmittingConcern
      ensures isLoggedIn == old(isLoggedIn) && patientName == old(patientName) && patientEmail == old(patientEmail)
      ensures patientPhone == old(patientPhone) && emailError == old(emailError) && phoneError == old(phoneError)
      ensures notificationPreference == old(notificationPreference) && isConfirmingPreference == old(isConfirmingPreference)
      ensures fileName == old(fileName)
    {
      AppendTitled(toasts, ConcernToast(language));
      toasts := toasts + [ConcernToast(language)];
      concern := "";
      isSubmittingConcern := false;
    }
  }
}
