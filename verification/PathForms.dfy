/** Every path an argument may carry: a worklist over introducers, URL forms and
    percent-decoding. */
module PathForms {
  const URL_INTRODUCER := "file://"
  const MAX_DECODE_PASSES := 8

  /** Percent-decoding, an external function known not to lengthen anything. */
  type Decoder = string -> string

  ghost predicate NeverLengthens(decode: Decoder) { forall s :: |decode(s)| <= |s| }

  function LowerChar(c: char): char { if 'A' <= c <= 'Z' then (c as int + 32) as char else c }

  function Lower(s: string): string { if |s| == 0 then "" else [LowerChar(s[0])] + Lower(s[1..]) }

  predicate HasUrl(s: string) { |s| >= |URL_INTRODUCER| && Lower(s[..|URL_INTRODUCER|]) == URL_INTRODUCER }

  /** The introducer is met in any letter case. */
  lemma HasUrlMeaning(s: string)
    ensures HasUrl(s) <==>
      && |s| >= 7 && s[0] in "fF" && s[1] in "iI" && s[2] in "lL" && s[3] in "eE" && s[4..7] == "://"
  {
    if |s| >= 7 {
      var t := s[..7];
      LowerAt(t);
      assert t == s[..|URL_INTRODUCER|];
      assert forall k | 0 <= k < 7 :: t[k] == s[k];
      assert s[4..7] == [s[4], s[5], s[6]];
      if HasUrl(s) { assert forall k | 0 <= k < 7 :: LowerChar(s[k]) == URL_INTRODUCER[k]; }
      if s[0] in "fF" && s[1] in "iI" && s[2] in "lL" && s[3] in "eE" && s[4..7] == "://" {
        assert s[4] == s[4..7][0] && s[5] == s[4..7][1] && s[6] == s[4..7][2];
        assert Lower(t) == URL_INTRODUCER;
      }
    }
  }

  lemma {:induction false} LowerAt(s: string)
    ensures |Lower(s)| == |s| && forall k | 0 <= k < |s| :: Lower(s)[k] == LowerChar(s[k])
  {
    if |s| != 0 { LowerAt(s[1..]); }
  }

  predicate HasAt(s: string) { |s| >= 1 && s[0] == '@' }

  /** The position of the first slash, |s| when there is none. */
  function FirstSlash(s: string): (i: nat)
    ensures i <= |s|
    ensures i < |s| ==> s[i] == '/'
    ensures forall k | 0 <= k < i :: s[k] != '/'
  {
    if |s| == 0 || s[0] == '/' then 0 else 1 + FirstSlash(s[1..])
  }

  /** Decoded until nothing changes, at most `passes` times. */
  function Decoded(decode: Decoder, value: string, passes: nat): string
    decreases passes
  {
    if passes == 0 || decode(value) == value then value else Decoded(decode, decode(value), passes - 1)
  }

  function FullyDecoded(decode: Decoder, value: string): string { Decoded(decode, value, MAX_DECODE_PASSES) }

  lemma {:induction false} DecodedShrinks(decode: Decoder, value: string, passes: nat)
    requires NeverLengthens(decode)
    ensures |Decoded(decode, value, passes)| <= |value|
    decreases passes
  {
    if passes != 0 && decode(value) != value { DecodedShrinks(decode, decode(value), passes - 1); }
  }

  /** `_url_forms`: the decoded readings first, then the path without its authority. */
  function UrlForms(decode: Decoder, rest: string): seq<string> {
    var slash := FirstSlash(rest);
    var path := if 0 < slash < |rest| then [rest[slash..]] else [];
    DecodedForms(decode, [rest] + path) + path
  }

  function DecodedForms(decode: Decoder, forms: seq<string>): seq<string> {
    if |forms| == 0 then []
    else
      var decoded := FullyDecoded(decode, forms[0]);
      (if decoded != forms[0] then [decoded] else []) + DecodedForms(decode, forms[1..])
  }

  /** The forms one string leads to, in the order the code tries them. */
  function Forms(decode: Decoder, s: string): seq<string> {
    if HasAt(s) then [s[1..]]
    else if HasUrl(s) then [s[|URL_INTRODUCER|..]] + UrlForms(decode, s[|URL_INTRODUCER|..])
    else []
  }

  // --- the specification ---

  /** `form` is what `s` carries behind an introducer. */
  ghost predicate Carries(decode: Decoder, s: string, form: string) {
    || (HasAt(s) && form == s[1..])
    || (HasUrl(s) && Reads(decode, s[|URL_INTRODUCER|..], form))
  }

  /** A URL's tail as it is or from its first slash on, each also decoded. */
  ghost predicate Reads(decode: Decoder, rest: string, form: string) {
    var slash := FirstSlash(rest);
    || form == rest || form == FullyDecoded(decode, rest)
    || (0 < slash < |rest| && (form == rest[slash..] || form == FullyDecoded(decode, rest[slash..])))
  }

  /** What can be reached from `s` through non-empty forms. */
  ghost predicate Reaches(decode: Decoder, s: string, form: string)
    requires NeverLengthens(decode)
    decreases |s|
  {
    || form == s
    || exists next :: Carries(decode, s, next) && 0 < |next| < |s| && Reaches(decode, next, form)
  }

  lemma DecodedFormsMeaning(decode: Decoder, forms: seq<string>, form: string)
    ensures form in DecodedForms(decode, forms) <==>
      exists i :: 0 <= i < |forms| && form == FullyDecoded(decode, forms[i]) && form != forms[i]
  {
    if |forms| != 0 {
      DecodedFormsMeaning(decode, forms[1..], form);
      if form in DecodedForms(decode, forms[1..]) {
        var i :| 0 <= i < |forms[1..]| && form == FullyDecoded(decode, forms[1..][i]) && form != forms[1..][i];
        assert forms[i + 1] == forms[1..][i];
      }
      if exists i :: 0 <= i < |forms| && form == FullyDecoded(decode, forms[i]) && form != forms[i] {
        var i :| 0 <= i < |forms| && form == FullyDecoded(decode, forms[i]) && form != forms[i];
        if i > 0 { assert forms[1..][i - 1] == forms[i]; }
      }
    }
  }

  lemma UrlFormsMeaning(decode: Decoder, rest: string, form: string)
    ensures form == rest || form in UrlForms(decode, rest) <==> Reads(decode, rest, form)
  {
    var slash := FirstSlash(rest);
    var path := if 0 < slash < |rest| then [rest[slash..]] else [];
    DecodedFormsMeaning(decode, [rest] + path, form);
    assert ([rest] + path)[0] == rest;
    if 0 < slash < |rest| { assert ([rest] + path)[1] == rest[slash..]; }
  }

  /** The code's list of forms is what the string carries. */
  lemma FormsMeaning(decode: Decoder, s: string, form: string)
    ensures form in Forms(decode, s) <==> Carries(decode, s, form)
  {
    if HasAt(s) {
      assert !HasUrl(s) by { assert Lower(s[..1])[0] == '@'; AtIsNotUrl(s); }
    } else if HasUrl(s) {
      UrlFormsMeaning(decode, s[|URL_INTRODUCER|..], form);
    }
  }

  lemma AtIsNotUrl(s: string)
    requires HasAt(s)
    ensures !HasUrl(s)
  {
    if |s| >= |URL_INTRODUCER| { assert Lower(s[..|URL_INTRODUCER|])[0] == LowerChar(s[0]); }
  }

  /** Every form is strictly shorter than the string it came from. */
  lemma FormsShrink(decode: Decoder, s: string, form: string)
    requires NeverLengthens(decode) && Carries(decode, s, form)
    ensures |form| < |s|
  {
    if HasUrl(s) {
      var rest := s[|URL_INTRODUCER|..];
      DecodedShrinks(decode, rest, MAX_DECODE_PASSES);
      if 0 < FirstSlash(rest) < |rest| { DecodedShrinks(decode, rest[FirstSlash(rest)..], MAX_DECODE_PASSES); }
    }
  }

  lemma {:induction false} ReachesMore(decode: Decoder, s: string, form: string, next: string)
    requires NeverLengthens(decode) && Reaches(decode, s, form) && Carries(decode, form, next) && next != ""
    ensures Reaches(decode, s, next)
    decreases |s|
  {
    if form == s {
      FormsShrink(decode, form, next);
      assert Reaches(decode, next, next);
    } else {
      var mid :| Carries(decode, s, mid) && 0 < |mid| < |s| && Reaches(decode, mid, form);
      ReachesMore(decode, mid, form, next);
    }
  }

  /** A set that holds `s`, and the non-empty forms of all it holds, holds all that can
      be reached. */
  lemma {:induction false} ReachedIsLeast(decode: Decoder, found: set<string>, s: string, form: string)
    requires NeverLengthens(decode) && s in found && Reaches(decode, s, form)
    requires forall x, y | x in found && Carries(decode, x, y) && y != "" :: y in found
    ensures form in found
    decreases |s|
  {
    if form != s {
      var next :| Carries(decode, s, next) && 0 < |next| < |s| && Reaches(decode, next, form);
      ReachedIsLeast(decode, found, next, form);
    }
  }

  // --- the worklist ---

  function Pow5(n: nat): (p: nat)
    ensures p >= 1
  {
    if n == 0 then 1 else 5 * Pow5(n - 1)
  }

  /** The measure: a string of length n may give four shorter ones. */
  function Weight(queue: seq<string>): nat {
    if |queue| == 0 then 0 else Weight(queue[..|queue| - 1]) + Pow5(|queue[|queue| - 1]|)
  }

  lemma PowGrows(a: nat, b: nat)
    requires a <= b
    ensures Pow5(a) <= Pow5(b)
  {
    if a < b { PowGrows(a, b - 1); }
  }

  lemma FewForms(decode: Decoder, s: string)
    ensures |Forms(decode, s)| <= 4
  {
    if !HasAt(s) && HasUrl(s) {
      var rest := s[|URL_INTRODUCER|..];
      var slash := FirstSlash(rest);
      var path := if 0 < slash < |rest| then [rest[slash..]] else [];
      FewDecoded(decode, [rest] + path);
    }
  }

  lemma FewDecoded(decode: Decoder, forms: seq<string>)
    ensures |DecodedForms(decode, forms)| <= |forms|
  {
    if |forms| != 0 { FewDecoded(decode, forms[1..]); }
  }

  lemma PushWeight(queue: seq<string>, form: string, bound: nat)
    requires |form| < bound
    ensures Weight(queue + [form]) <= Weight(queue) + Pow5(bound - 1)
  {
    assert (queue + [form])[..|queue|] == queue;
    PowGrows(|form|, bound - 1);
  }

  /** What the worklist has done: nothing unreachable found, and every string found is
      still waiting or has had its forms found. */
  ghost predicate Progress(decode: Decoder, candidate: string, found: set<string>, waiting: set<string>)
    requires NeverLengthens(decode)
  {
    && candidate in found
    && (forall x | x in found :: Reaches(decode, candidate, x))
    && (forall x, y | x in found && x !in waiting && Carries(decode, x, y) && y != "" :: y in found)
  }

  lemma ProgressAdd(decode: Decoder, candidate: string, found: set<string>, waiting: set<string>, current: string,
                    form: string)
    requires NeverLengthens(decode) && Progress(decode, candidate, found, waiting + {current})
    requires current in found && Carries(decode, current, form) && form != ""
    ensures Progress(decode, candidate, found + {form}, waiting + {form} + {current})
  {
    ReachesMore(decode, candidate, current, form);
  }

  lemma ProgressDone(decode: Decoder, candidate: string, found: set<string>, waiting: set<string>, current: string)
    requires NeverLengthens(decode) && Progress(decode, candidate, found, waiting + {current})
    requires forall y | Carries(decode, current, y) && y != "" :: y in found
    ensures Progress(decode, candidate, found, waiting)
  {
  }

  function Elements(s: seq<string>): set<string> { set x | x in s }

  lemma ElementsMore(s: seq<string>, x: string)
    ensures Elements(s + [x]) == Elements(s) + {x}
  {
  }

  /** i shares of p. */
  function Shares(i: nat, p: nat): nat { if i == 0 then 0 else p + Shares(i - 1, p) }

  /** The weight stays within its share, pushed or not. */
  lemma ShareTaken(queue: seq<string>, form: string, bound: nat, base: nat, i: nat)
    requires bound > 0 && Weight(queue) <= base + Shares(i, Pow5(bound - 1))
    ensures Weight(queue) <= base + Shares(i + 1, Pow5(bound - 1))
    ensures |form| < bound ==> Weight(queue + [form]) <= base + Shares(i + 1, Pow5(bound - 1))
  {
    if |form| < bound { PushWeight(queue, form, bound); }
  }

  lemma FourShares(i: nat, p: nat)
    requires i <= 4
    ensures Shares(i, p) <= p + p + p + p
  {
    assert Shares(1, p) == p && Shares(2, p) == p + p && Shares(3, p) == p + p + p;
    assert Shares(4, p) == p + p + p + p;
  }

  ghost predicate NoRepeats(forms: seq<string>) { forall i, j | 0 <= i < j < |forms| :: forms[i] != forms[j] }

  /** What the inner loop keeps: the found forms, and what is still to be looked at. */
  ghost predicate Pushing(decode: Decoder, candidate: string, current: string, forms: seq<string>, queue: seq<string>)
    requires NeverLengthens(decode)
  {
    && NoRepeats(forms) && current in forms
    && Elements(queue) <= Elements(forms)
    && Progress(decode, candidate, Elements(forms), Elements(queue) + {current})
  }

  lemma PushOne(decode: Decoder, candidate: string, current: string, forms: seq<string>, queue: seq<string>,
                form: string)
    requires NeverLengthens(decode) && Pushing(decode, candidate, current, forms, queue)
    requires Carries(decode, current, form) && form != "" && form !in forms
    ensures Pushing(decode, candidate, current, forms + [form], queue + [form])
  {
    ProgressAdd(decode, candidate, Elements(forms), Elements(queue), current, form);
    ElementsMore(forms, form);
    ElementsMore(queue, form);
  }

  lemma OfferedForm(decode: Decoder, current: string, form: string)
    requires NeverLengthens(decode) && form in Forms(decode, current)
    ensures Carries(decode, current, form) && |form| < |current|
  {
    FormsMeaning(decode, current, form);
    FormsShrink(decode, current, form);
  }

  lemma AllOffered(decode: Decoder, current: string, forms: seq<string>)
    requires Taken(Forms(decode, current), forms)
    ensures forall y | Carries(decode, current, y) && y != "" :: y in Elements(forms)
  {
    forall y | Carries(decode, current, y) && y != "" ensures y in Elements(forms) {
      FormsMeaning(decode, current, y);
    }
  }

  predicate Taken(offered: seq<string>, forms: seq<string>) {
    forall form | form in offered && form != "" :: form in forms
  }

  lemma TakenMore(offered: seq<string>, i: nat, forms: seq<string>, more: seq<string>)
    requires i < |offered| && Taken(offered[..i], forms) && forms <= more
    requires offered[i] == "" || offered[i] in more
    ensures Taken(offered[..i + 1], more)
  {
    assert offered[..i + 1] == offered[..i] + [offered[i]];
    assert forall form | form in forms :: form in more;
  }

  predicate New(form: string, before: seq<string>) { form != "" && form !in before }

  lemma OfferKeeps(decode: Decoder, candidate: string, current: string, form: string, before: seq<string>,
                   waiting: seq<string>)
    requires NeverLengthens(decode) && Pushing(decode, candidate, current, before, waiting)
    requires Carries(decode, current, form)
    ensures New(form, before) ==> Pushing(decode, candidate, current, before + [form], waiting + [form])
  {
    if New(form, before) { PushOne(decode, candidate, current, before, waiting, form); }
  }

  function Kept(form: string, before: seq<string>): seq<string> {
    if New(form, before) then before + [form] else before
  }

  function Waiting(form: string, before: seq<string>, waiting: seq<string>): seq<string> {
    if New(form, before) then waiting + [form] else waiting
  }

  /** One form: remembered and pushed unless it is empty or was seen before. */
  method Offer(form: string, before: seq<string>, waiting: seq<string>) returns (forms: seq<string>, queue: seq<string>)
    ensures forms == Kept(form, before) && queue == Waiting(form, before, waiting)
  {
    forms, queue := before, waiting;
    if form != "" && form !in before { forms, queue := before + [form], waiting + [form]; }
  }

  /** One turn of the inner loop. */
  lemma PushStep(decode: Decoder, candidate: string, current: string, offered: seq<string>, i: nat,
                 forms: seq<string>, queue: seq<string>, base: nat)
    requires NeverLengthens(decode) && Pushing(decode, candidate, current, forms, queue)
    requires offered == Forms(decode, current) && i < |offered| && Taken(offered[..i], forms)
    requires Weight(queue) <= base + Shares(i, if |current| == 0 then 0 else Pow5(|current| - 1))
    ensures var more, rest := Kept(offered[i], forms), Waiting(offered[i], forms, queue);
      && Pushing(decode, candidate, current, more, rest) && Taken(offered[..i + 1], more)
      && Weight(rest) <= base + Shares(i + 1, if |current| == 0 then 0 else Pow5(|current| - 1))
  {
    OfferedForm(decode, current, offered[i]);
    OfferKeeps(decode, candidate, current, offered[i], forms, queue);
    ShareTaken(queue, offered[i], |current|, base, i);
    if New(offered[i], forms) { assert Kept(offered[i], forms)[|forms|] == offered[i]; }
    TakenMore(offered, i, forms, Kept(offered[i], forms));
  }

  /** The inner loops: the forms of one string, those not seen before pushed. */
  method Push(decode: Decoder, candidate: string, current: string, before: seq<string>, waiting: seq<string>)
    returns (forms: seq<string>, queue: seq<string>)
    requires NeverLengthens(decode) && Pushing(decode, candidate, current, before, waiting)
    ensures NoRepeats(forms) && Elements(queue) <= Elements(forms)
    ensures before <= forms
    ensures Progress(decode, candidate, Elements(forms), Elements(queue))
    ensures Weight(queue) < Weight(waiting) + Pow5(|current|)
  {
    forms, queue := before, waiting;
    var offered := Forms(decode, current);
    ghost var p := if |current| == 0 then 0 else Pow5(|current| - 1);
    ghost var base := Weight(waiting);
    var i: nat := 0;
    while i < |offered|
      invariant 0 <= i <= |offered| && Pushing(decode, candidate, current, forms, queue)
      invariant before <= forms && Taken(offered[..i], forms)
      invariant Weight(queue) <= base + Shares(i, p)
    {
      PushStep(decode, candidate, current, offered, i, forms, queue, base);
      forms, queue := Offer(offered[i], forms, queue);
      i := i + 1;
    }
    PushDone(decode, candidate, current, forms, queue, base, p, offered, i);
  }

  lemma PushDone(decode: Decoder, candidate: string, current: string, forms: seq<string>, queue: seq<string>,
                 base: nat, p: nat, offered: seq<string>, i: nat)
    requires NeverLengthens(decode) && Pushing(decode, candidate, current, forms, queue)
    requires offered == Forms(decode, current) && i == |offered| && Taken(offered[..i], forms)
    requires p == if |current| == 0 then 0 else Pow5(|current| - 1)
    requires Weight(queue) <= base + Shares(i, p)
    ensures Progress(decode, candidate, Elements(forms), Elements(queue))
    ensures Weight(queue) < base + Pow5(|current|)
  {
    assert offered[..i] == offered;
    FewForms(decode, current);
    FourShares(i, p);
    AllOffered(decode, current, forms);
    ProgressDone(decode, candidate, Elements(forms), Elements(queue), current);
  }

  /** `_introduced_paths`: without repeats and starting with the candidate itself,
      exactly the strings reachable from it. */
  method IntroducedPaths(decode: Decoder, candidate: string) returns (forms: seq<string>)
    requires NeverLengthens(decode)
    ensures NoRepeats(forms) && |forms| > 0 && forms[0] == candidate
    ensures forall form :: form in forms <==> Reaches(decode, candidate, form)
  {
    forms := [candidate];
    var queue := [candidate];
    while |queue| != 0
      invariant NoRepeats(forms) && |forms| > 0 && forms[0] == candidate
      invariant Elements(queue) <= Elements(forms)
      invariant Progress(decode, candidate, Elements(forms), Elements(queue))
      decreases Weight(queue)
    {
      var current := queue[|queue| - 1];
      var rest := queue[..|queue| - 1];
      assert queue == rest + [current];
      ElementsMore(rest, current);
      forms, queue := Push(decode, candidate, current, forms, rest);
    }
    forall form | Reaches(decode, candidate, form) ensures form in forms {
      ReachedIsLeast(decode, Elements(forms), candidate, form);
    }
  }

  // --- how far decoding goes ---

  function Iterate(decode: Decoder, value: string, n: nat): string
    decreases n
  {
    if n == 0 then value else Iterate(decode, decode(value), n - 1)
  }

  lemma {:induction false} DecodedIsIterate(decode: Decoder, value: string, passes: nat)
    ensures Decoded(decode, value, passes) == Iterate(decode, value, passes)
    decreases passes
  {
    if passes != 0 {
      if decode(value) == value { StaysFixed(decode, value, passes); }
      else { DecodedIsIterate(decode, decode(value), passes - 1); }
    }
  }

  lemma {:induction false} StaysFixed(decode: Decoder, value: string, n: nat)
    requires decode(value) == value
    ensures Iterate(decode, value, n) == value
  {
    if n != 0 { StaysFixed(decode, value, n - 1); }
  }

  // --- percent-decoding itself ---

  /** How bytes are read as text: an external function that never gives more characters
      than there are bytes, and reads ASCII as it is. */
  type Utf8 = seq<nat> -> string

  predicate IsAscii(c: char) { c as nat < 128 }

  predicate AllAscii(s: string) { forall i | 0 <= i < |s| :: IsAscii(s[i]) }

  function Codes(s: string): (codes: seq<nat>)
    ensures |codes| == |s|
  {
    if |s| == 0 then [] else [s[0] as nat] + Codes(s[1..])
  }

  ghost predicate ReadsText(utf8: Utf8) {
    (forall bytes :: |utf8(bytes)| <= |bytes|) && (forall s | AllAscii(s) :: utf8(Codes(s)) == s)
  }

  function HexValue(c: char): (v: nat)
    ensures v <= 16
  {
    if '0' <= c <= '9' then c as nat - '0' as nat
    else if 'a' <= c <= 'f' then c as nat - 'a' as nat + 10
    else if 'A' <= c <= 'F' then c as nat - 'A' as nat + 10
    else 16
  }

  predicate EscapeFirst(s: string) { |s| >= 3 && s[0] == '%' && HexValue(s[1]) < 16 && HexValue(s[2]) < 16 }

  /** `unquote_to_bytes` of an ASCII run. */
  function UnquotedBytes(run: string): seq<nat> {
    if |run| == 0 then []
    else if EscapeFirst(run) then [16 * HexValue(run[1]) + HexValue(run[2])] + UnquotedBytes(run[3..])
    else [run[0] as nat] + UnquotedBytes(run[1..])
  }

  /** The length of the longest ASCII prefix. */
  function AsciiRun(s: string): (k: nat)
    ensures k <= |s| && AllAscii(s[..k]) && (k < |s| ==> !IsAscii(s[k]))
    ensures |s| != 0 && IsAscii(s[0]) ==> k > 0
  {
    if |s| == 0 || !IsAscii(s[0]) then 0 else 1 + AsciiRun(s[1..])
  }

  /** `unquote`: each ASCII run decoded to bytes and read as text, the rest kept. */
  function Unquote(utf8: Utf8, s: string): string
    decreases |s|
  {
    if |s| == 0 then ""
    else if !IsAscii(s[0]) then [s[0]] + Unquote(utf8, s[1..])
    else utf8(UnquotedBytes(s[..AsciiRun(s)])) + Unquote(utf8, s[AsciiRun(s)..])
  }

  function Unquoting(utf8: Utf8): Decoder { s => Unquote(utf8, s) }

  function Escapes(run: string): nat {
    if |run| == 0 then 0 else if EscapeFirst(run) then 1 + Escapes(run[3..]) else Escapes(run[1..])
  }

  lemma {:induction false} EscapesShrink(run: string)
    ensures |UnquotedBytes(run)| + 2 * Escapes(run) == |run|
    ensures Escapes(run) == 0 ==> UnquotedBytes(run) == Codes(run)
    decreases |run|
  {
    if |run| != 0 { EscapesShrink(if EscapeFirst(run) then run[3..] else run[1..]); }
  }

  lemma RunShrinks(utf8: Utf8, run: string)
    requires ReadsText(utf8) && AllAscii(run)
    ensures utf8(UnquotedBytes(run)) == run || |utf8(UnquotedBytes(run))| + 2 <= |run|
  {
    EscapesShrink(run);
    if Escapes(run) == 0 { assert utf8(Codes(run)) == run; }
  }

  /** Two parts that each stay or shrink. */
  lemma PartsShrink(a: string, a': string, b: string, b': string)
    requires (a' == a || |a'| + 2 <= |a|) && (b' == b || |b'| + 2 <= |b|)
    ensures a' + b' == a + b || |a' + b'| + 2 <= |a + b|
  {
  }

  /** One pass changes nothing, or removes at least two characters. */
  lemma {:induction false} UnquoteShrinks(utf8: Utf8, s: string)
    requires ReadsText(utf8)
    ensures Unquote(utf8, s) == s || |Unquote(utf8, s)| + 2 <= |s|
    decreases |s|
  {
    if |s| != 0 {
      var k := if IsAscii(s[0]) then AsciiRun(s) else 1;
      var run, rest := s[..k], s[k..];
      assert s == run + rest;
      UnquoteShrinks(utf8, rest);
      if IsAscii(s[0]) {
        RunShrinks(utf8, run);
        PartsShrink(run, utf8(UnquotedBytes(run)), rest, Unquote(utf8, rest));
      } else {
        PartsShrink(run, run, rest, Unquote(utf8, rest));
      }
    }
  }

  lemma UnquotingNeverLengthens(utf8: Utf8)
    requires ReadsText(utf8)
    ensures NeverLengthens(Unquoting(utf8))
  {
    forall s ensures |Unquoting(utf8)(s)| <= |s| { UnquoteShrinks(utf8, s); }
  }

  /** `_introduced_paths` with the decoding it really uses. */
  method ArgumentPaths(utf8: Utf8, candidate: string) returns (forms: seq<string>)
    requires ReadsText(utf8)
    ensures NeverLengthens(Unquoting(utf8))
    ensures NoRepeats(forms) && |forms| > 0 && forms[0] == candidate
    ensures forall form :: form in forms <==> Reaches(Unquoting(utf8), candidate, form)
  {
    UnquotingNeverLengthens(utf8);
    forms := IntroducedPaths(Unquoting(utf8), candidate);
  }

  /** A value short enough for its passes is decoded to a fixed point. */
  lemma {:induction false} ShortIsDecoded(utf8: Utf8, value: string, passes: nat)
    requires ReadsText(utf8) && |value| < 2 * passes + 3
    ensures var result := Decoded(Unquoting(utf8), value, passes); Unquote(utf8, result) == result
    decreases passes
  {
    UnquoteShrinks(utf8, value);
    if passes == 0 { ShortHasNoEscape(utf8, value); }
    else if Unquote(utf8, value) != value { ShortIsDecoded(utf8, Unquote(utf8, value), passes - 1); }
  }

  lemma {:induction false} ShortHasNoEscape(utf8: Utf8, s: string)
    requires ReadsText(utf8) && |s| < 3
    ensures Unquote(utf8, s) == s
    decreases |s|
  {
    if |s| != 0 {
      var k := if IsAscii(s[0]) then AsciiRun(s) else 1;
      ShortHasNoEscape(utf8, s[k..]);
      assert s == s[..k] + s[k..];
      NoPercent(s[..k]);
      if IsAscii(s[0]) { assert utf8(Codes(s[..k])) == s[..k]; }
    }
  }

  lemma {:induction false} NoPercent(s: string)
    requires |s| < 3 || forall i | 0 <= i < |s| :: s[i] != '%'
    ensures UnquotedBytes(s) == Codes(s)
    decreases |s|
  {
    if |s| != 0 { NoPercent(s[1..]); }
  }

  const LOWER_DIGITS := "0123456789abcdef"
  const UPPER_DIGITS := "0123456789ABCDEF"

  /** A byte as it is, or percent-encoded with each of its two digits in either case. */
  datatype Coding = Plain | Encoded(highUpper: bool, lowUpper: bool)

  function Digit(d: nat, upper: bool): char
    requires d < 16
  {
    if upper then UPPER_DIGITS[d] else LOWER_DIGITS[d]
  }

  /** Percent-encoding, some bytes encoded and some not. */
  function Quoted(bytes: seq<nat>, coding: seq<Coding>): string
    requires |coding| == |bytes| && forall i | 0 <= i < |bytes| :: bytes[i] < 256
    decreases |bytes|
  {
    if |bytes| == 0 then ""
    else
      (match coding[0]
       case Plain => [bytes[0] as char]
       case Encoded(high, low) => ['%', Digit(bytes[0] / 16, high), Digit(bytes[0] % 16, low)])
      + Quoted(bytes[1..], coding[1..])
  }

  lemma DigitValue(d: nat, upper: bool)
    requires d < 16
    ensures HexValue(Digit(d, upper)) == d
  {
    assert d == 0 || d == 1 || d == 2 || d == 3 || d == 4 || d == 5 || d == 6 || d == 7 || d == 8 || d == 9
      || d == 10 || d == 11 || d == 12 || d == 13 || d == 14 || d == 15;
  }

  /** Decoding gives back exactly the bytes that were encoded, whichever of them were and
      in whatever letter case, as long as every percent sign was. */
  lemma {:induction false} QuotedComesBack(bytes: seq<nat>, coding: seq<Coding>)
    requires |coding| == |bytes| && forall i | 0 <= i < |bytes| :: bytes[i] < 256
    requires forall i | 0 <= i < |bytes| && bytes[i] == '%' as nat :: coding[i].Encoded?
    ensures UnquotedBytes(Quoted(bytes, coding)) == bytes
    decreases |bytes|
  {
    if |bytes| != 0 {
      var b, rest := bytes[0], Quoted(bytes[1..], coding[1..]);
      QuotedComesBack(bytes[1..], coding[1..]);
      var s := Quoted(bytes, coding);
      match coding[0]
      case Plain =>
        assert s == [b as char] + rest && s[1..] == rest;
        assert s[0] != '%' by { assert '%' as nat == 37; }
      case Encoded(high, low) =>
        assert s == ['%', Digit(b / 16, high), Digit(b % 16, low)] + rest && s[3..] == rest;
        DigitValue(b / 16, high);
        DigitValue(b % 16, low);
    }
  }

  /** A string of ASCII characters is one run. */
  lemma AsciiIsOneRun(utf8: Utf8, s: string)
    requires ReadsText(utf8) && AllAscii(s)
    ensures Unquote(utf8, s) == utf8(UnquotedBytes(s))
  {
    if |s| != 0 {
      assert s[..AsciiRun(s)] == s && s[AsciiRun(s)..] == "";
      assert utf8(UnquotedBytes(s)) + "" == utf8(UnquotedBytes(s));
    } else {
      assert utf8(Codes("")) == "";
    }
  }

  predicate HexDigit(c: char) { c in LOWER_DIGITS || c in UPPER_DIGITS }

  lemma HexDigitMeaning(c: char)
    ensures HexDigit(c) <==> HexValue(c) < 16
  {
    if HexDigit(c) {
      if c in LOWER_DIGITS { var d :| 0 <= d < 16 && LOWER_DIGITS[d] == c; DigitValue(d, false); }
      else { var d :| 0 <= d < 16 && UPPER_DIGITS[d] == c; DigitValue(d, true); }
    }
    if HexValue(c) < 16 {
      assert HexValue(c) == 0 || HexValue(c) == 1 || HexValue(c) == 2 || HexValue(c) == 3 || HexValue(c) == 4
        || HexValue(c) == 5 || HexValue(c) == 6 || HexValue(c) == 7 || HexValue(c) == 8 || HexValue(c) == 9
        || HexValue(c) == 10 || HexValue(c) == 11 || HexValue(c) == 12 || HexValue(c) == 13 || HexValue(c) == 14
        || HexValue(c) == 15;
      assert c == LOWER_DIGITS[HexValue(c)] || c == UPPER_DIGITS[HexValue(c)];
    }
  }

  /** A character that begins no escape stands for itself, also a percent sign without two
      hexadecimal digits after it. */
  lemma OthersStandForThemselves(c: char, rest: string)
    requires c != '%' || |rest| < 2 || !HexDigit(rest[0]) || !HexDigit(rest[1])
    ensures UnquotedBytes([c] + rest) == [c as nat] + UnquotedBytes(rest)
  {
    var s := [c] + rest;
    assert s[1..] == rest;
    if |rest| >= 2 {
      assert s[1] == rest[0] && s[2] == rest[1];
      HexDigitMeaning(rest[0]);
      HexDigitMeaning(rest[1]);
    }
  }

  lemma {:induction false} QuotedIsAscii(bytes: seq<nat>, coding: seq<Coding>)
    requires |coding| == |bytes|
    requires forall i | 0 <= i < |bytes| :: bytes[i] < 256 && (coding[i].Plain? ==> bytes[i] < 128)
    ensures AllAscii(Quoted(bytes, coding))
    decreases |bytes|
  {
    if |bytes| != 0 { QuotedIsAscii(bytes[1..], coding[1..]); }
  }

  /** A stretch of encoded text is read as the bytes it encodes. */
  lemma UnquoteReadsTheBytes(utf8: Utf8, bytes: seq<nat>, coding: seq<Coding>)
    requires ReadsText(utf8) && |coding| == |bytes|
    requires forall i | 0 <= i < |bytes| ::
      bytes[i] < 256 && (coding[i].Plain? ==> bytes[i] < 128 && bytes[i] != '%' as nat)
    ensures Unquote(utf8, Quoted(bytes, coding)) == utf8(bytes)
  {
    QuotedIsAscii(bytes, coding);
    AsciiIsOneRun(utf8, Quoted(bytes, coding));
    QuotedComesBack(bytes, coding);
  }

  lemma {:induction false} AsciiRunStops(a: string, rest: string)
    requires |rest| != 0 && !IsAscii(rest[0])
    ensures AsciiRun(a + rest) == AsciiRun(a)
  {
    if |a| == 0 { assert a + rest == rest; }
    else {
      assert (a + rest)[1..] == a[1..] + rest;
      AsciiRunStops(a[1..], rest);
    }
  }

  /** A character outside ASCII stays, and the text on either side of it is decoded for
      itself. */
  lemma {:induction false} UnquoteKeepsOthers(utf8: Utf8, a: string, c: char, b: string)
    requires c as nat >= 128
    ensures Unquote(utf8, a + ([c] + b)) == Unquote(utf8, a) + ([c] + Unquote(utf8, b))
    decreases |a|
  {
    var rest := [c] + b;
    assert rest[1..] == b;
    if |a| == 0 {
      assert a + rest == rest;
    } else {
      AsciiRunStops(a, rest);
      var k := if IsAscii(a[0]) then AsciiRun(a) else 1;
      assert (a + rest)[..k] == a[..k] && (a + rest)[k..] == a[k..] + rest;
      UnquoteKeepsOthers(utf8, a[k..], c, b);
      var first := if IsAscii(a[0]) then utf8(UnquotedBytes(a[..k])) else [a[0]];
      assert first + (Unquote(utf8, a[k..]) + ([c] + Unquote(utf8, b)))
        == (first + Unquote(utf8, a[k..])) + ([c] + Unquote(utf8, b));
    }
  }

  /** A dot, percent-encoded n + 1 times over. */
  function Nested(n: nat): string { "%" + Tail(n) }

  function Tail(n: nat): (s: string)
    ensures AllAscii(s) && |s| == 2 * n + 2 && forall i | 0 <= i < |s| :: s[i] != '%'
  {
    if n == 0 then "2e" else "25" + Tail(n - 1)
  }

  /** One pass takes one layer off. */
  lemma UnquoteMore(utf8: Utf8, n: nat)
    requires ReadsText(utf8) && n > 0
    ensures Unquote(utf8, Nested(n)) == Nested(n - 1)
  {
    var s, rest := Nested(n), Tail(n - 1);
    AsciiIsOneRun(utf8, s);
    assert s == ['%', '2', '5'] + rest && s[3..] == rest;
    NoPercent(rest);
    assert 16 * HexValue('2') + HexValue('5') == 37 == '%' as nat;
    assert Nested(n - 1)[1..] == rest;
    assert UnquotedBytes(s) == [37] + Codes(rest) == Codes(Nested(n - 1));
    assert AllAscii(Nested(n - 1));
  }

  lemma UnquoteDot(utf8: Utf8)
    requires ReadsText(utf8)
    ensures Unquote(utf8, Nested(0)) == "." && Unquote(utf8, ".") == "."
  {
    AsciiIsOneRun(utf8, Nested(0));
    assert Nested(0) == ['%', '2', 'e'] && Nested(0)[3..] == "";
    assert 16 * HexValue('2') + HexValue('e') == 46 == '.' as nat;
    assert "."[1..] == "";
    assert UnquotedBytes(Nested(0)) == [46] == Codes(".");
    assert AllAscii(".");
    ShortHasNoEscape(utf8, ".");
  }

  /** A chain of strings each decoded to the one before it, down to a fixed point. */
  ghost predicate Chain(decode: Decoder, chain: nat -> string, end: string) {
    && decode(chain(0)) == end && decode(end) == end && chain(0) != end
    && forall m: nat | m > 0 :: decode(chain(m)) == chain(m - 1) && chain(m) != chain(m - 1) && chain(m) != end
  }

  lemma {:induction false} IterateChain(decode: Decoder, chain: nat -> string, end: string, n: nat, k: nat)
    requires Chain(decode, chain, end)
    ensures Iterate(decode, chain(n), k) == if k <= n then chain(n - k) else end
    decreases k
  {
    if k != 0 {
      if n == 0 {
        StaysFixed(decode, end, k - 1);
      } else {
        assert decode(chain(n)) == chain(n - 1);
        IterateChain(decode, chain, end, n - 1, k - 1);
      }
    }
  }

  lemma CapOnChain(decode: Decoder, chain: nat -> string, end: string, n: nat)
    requires Chain(decode, chain, end)
    ensures var result := FullyDecoded(decode, chain(n));
      && (result == end <==> n < MAX_DECODE_PASSES)
      && (decode(result) == result <==> n < MAX_DECODE_PASSES)
  {
    DecodedIsIterate(decode, chain(n), MAX_DECODE_PASSES);
    IterateChain(decode, chain, end, n, MAX_DECODE_PASSES);
    if n >= MAX_DECODE_PASSES {
      var m := n - MAX_DECODE_PASSES;
      if m > 0 { assert decode(chain(m)) == chain(m - 1) != chain(m); }
    }
  }

  lemma NestedIsAChain(utf8: Utf8)
    requires ReadsText(utf8)
    ensures Chain(Unquoting(utf8), Nested, ".")
  {
    UnquoteDot(utf8);
    forall m: nat | m > 0
      ensures Unquote(utf8, Nested(m)) == Nested(m - 1) && Nested(m) != Nested(m - 1) && Nested(m) != "."
    {
      UnquoteMore(utf8, m);
      assert |Nested(m)| > |Nested(m - 1)| > 1;
    }
  }

  /** The eight passes reach a fixed point on a dot encoded up to eight times over, and
      stop short of it from the ninth on. */
  lemma DeepNestingIsNotDecoded(utf8: Utf8, n: nat)
    requires ReadsText(utf8)
    ensures var result := FullyDecoded(Unquoting(utf8), Nested(n));
      && (result == "." <==> n < MAX_DECODE_PASSES)
      && (Unquote(utf8, result) == result <==> n < MAX_DECODE_PASSES)
  {
    NestedIsAChain(utf8);
    CapOnChain(Unquoting(utf8), Nested, ".", n);
  }

  /** Up to which length decoding is complete: every value shorter than 19 characters is
      decoded to a fixed point, and of 19 characters some are not. */
  lemma DecodesShortValuesExactly(utf8: Utf8, bound: nat)
    requires ReadsText(utf8)
    ensures (forall value | |value| < bound ::
               Unquote(utf8, FullyDecoded(Unquoting(utf8), value)) == FullyDecoded(Unquoting(utf8), value))
      <==> bound <= 2 * MAX_DECODE_PASSES + 3
  {
    if bound <= 2 * MAX_DECODE_PASSES + 3 {
      forall value | |value| < bound
        ensures Unquote(utf8, FullyDecoded(Unquoting(utf8), value)) == FullyDecoded(Unquoting(utf8), value)
      {
        ShortIsDecoded(utf8, value, MAX_DECODE_PASSES);
      }
    } else {
      DeepNestingIsNotDecoded(utf8, MAX_DECODE_PASSES);
      assert |Nested(MAX_DECODE_PASSES)| < bound;
    }
  }
}
