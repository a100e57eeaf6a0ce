/**
 * The general-purpose commands of src/cogs/general.py: `pixiv`, which validates a Pixiv
 * artwork link, downloads the image with gallery-dl and reports the downloader's errors,
 * and `forex`, which builds a Yahoo Finance currency symbol and guards the amount.
 *
 * The downloader process and the quote service are parameters; the MiB formatting of
 * sizes and the rounding of amounts are not modelled.
 */
module General {
  import opened Wrappers
  import PyText

  /** What a command does towards the user, in order. */
  datatype Reply =
    | Respond(text: string)                                  // ia.response.send_message
    | Defer                                                  // ia.response.defer
    | Followup(text: string)                                 // ia.followup.send
    | TooBig(imageBytes: nat, maxBytes: nat)                 // the "image is too big" follow-up
    | Upload(path: string, sharedBy: string, source: string) // the embed with the downloaded file
    | Converted(amount: real, from: string, value: real, to: string)
    | Raise                                                  // an exception escapes the command

  /** How the gallery-dl process ended. */
  datatype Process = Process(returncode: int, stdout: string, stderr: string)

  /** The quote service's answer for a symbol: a closing rate, or a failure. */
  datatype Quote = QuoteFailed | Close(rate: real)

  const InvalidLinkMsg := "You link is invalid!"
  const PixivHost := "www.pixiv.net/"
  const RangeMsg := "Please enter a value between 0 and 1,000,000,000."
  const QuoteFailedMsg := "Something went wrong. Most likely you inputted nonexistent currency code(s)."

  // ---------------------------------------------------------------------------
  // The Pixiv link pattern `www\.pixiv\.net\/(?:en\/)?artworks\/\d+`

  /** The length of the run of ASCII digits at index `j`. */
  function DigitRun(s: string, j: nat): (n: nat)
    requires j <= |s|
    ensures j + n <= |s| && (j + n == |s| || !PyText.IsDigit(s[j + n]))
    ensures forall k :: j <= k < j + n ==> PyText.IsDigit(s[k])
    decreases |s| - j
  {
    if j < |s| && PyText.IsDigit(s[j]) then 1 + DigitRun(s, j + 1) else 0
  }

  /** Where the artwork number starts after the host at `j`, with or without "en/". */
  function ArtworkStart(s: string, j: nat): Option<nat> {
    if PyText.OccursAt(s, "en/artworks/", j) then Some(j + 12)
    else if PyText.OccursAt(s, "artworks/", j) then Some(j + 9)
    else None
  }

  /**
   * The pattern matched at index `i`: the host, the optional "en/", "artworks/" and the
   * maximal run of digits after it, of which there must be one at least.
   */
  function PixivAt(s: string, i: nat): (m: Option<string>)
    ensures m.Some? ==> PyText.OccursAt(s, m.value, i) && PyText.OccursAt(s, PixivHost, i)
    ensures m.Some? ==> i + |m.value| == |s| || !PyText.IsDigit(s[i + |m.value|])
    ensures m.Some? ==> |m.value| > 14 && PyText.IsDigit(m.value[|m.value| - 1])
  {
    if PyText.OccursAt(s, PixivHost, i) && ArtworkStart(s, i + 14).Some? then
      var k := ArtworkStart(s, i + 14).value;
      var n := DigitRun(s, k);
      if n > 0 then Some(s[i..k + n]) else None
    else None
  }

  /** `link` is the host, "en/artworks/" or "artworks/", and a non-empty run of digits. */
  predicate IsArtworkPage(link: string, path: string, digits: string) {
    (path == "en/artworks/" || path == "artworks/") && digits != [] && PyText.AllDigits(digits)
    && link == PixivHost + path + digits
  }

  /** Whatever the pattern matches is an artwork page link: the host, the path and the number. */
  lemma PixivAtIsArtworkPage(s: string, i: nat)
    requires PixivAt(s, i).Some?
    ensures exists path, digits :: IsArtworkPage(PixivAt(s, i).value, path, digits)
  {
    var k := ArtworkStart(s, i + 14).value;
    var n := DigitRun(s, k);
    ArtworkPageOfMatch(s, i, k, n);
  }

  lemma ArtworkPageOfMatch(s: string, i: nat, k: nat, n: nat)
    requires PyText.OccursAt(s, PixivHost, i) && ArtworkStart(s, i + 14) == Some(k)
    requires 0 < n && k + n <= |s| && forall j :: k <= j < k + n ==> PyText.IsDigit(s[j])
    ensures IsArtworkPage(s[i..k + n], if k == i + 26 then "en/artworks/" else "artworks/", s[k..k + n])
  {
    var path := if k == i + 26 then "en/artworks/" else "artworks/";
    assert s[i + 14..k] == path;
    assert s[i..k + n] == s[i..i + 14] + s[i + 14..k] + s[k..k + n];
  }

  /** `re.search` of the pattern: the leftmost match, or None. */
  function PixivLink(s: string): (m: Option<string>)
    ensures m.None? <==> forall i :: 0 <= i <= |s| ==> PixivAt(s, i).None?
    ensures m.Some? ==> exists i :: 0 <= i <= |s| && PixivAt(s, i) == m
                                   && forall j :: 0 <= j < i ==> PixivAt(s, j).None?
  {
    var matchAt := (i: nat) => PixivAt(s, i);
    assert forall i: nat :: matchAt(i) == PixivAt(s, i);
    PyText.Leftmost(matchAt, 0, |s|)
  }

  /** A match at the very start is the one `re.search` reports. */
  lemma PixivLinkAtStart(s: string)
    requires PixivAt(s, 0).Some?
    ensures PixivLink(s) == PixivAt(s, 0)
  {
    var matchAt := (i: nat) => PixivAt(s, i);
    assert matchAt(0) == PixivAt(s, 0);
    assert PyText.Leftmost(matchAt, 0, |s|) == matchAt(0);
  }

  /** The path after the host decides where the artwork number starts. */
  lemma ArtworkStartOfPath(s: string, j: nat, path: string)
    requires path == "en/artworks/" || path == "artworks/"
    requires PyText.OccursAt(s, path, j)
    ensures ArtworkStart(s, j) == Some(j + |path|)
  {
    if path == "artworks/" {
      assert s[j] == 'a';
    }
  }

  /** A run of digits followed by a non-digit, or by nothing, is read whole. */
  lemma DigitRunOfNumber(pre: string, digits: string, rest: string)
    requires PyText.AllDigits(digits)
    requires rest == [] || !PyText.IsDigit(rest[0])
    ensures DigitRun(pre + digits + rest, |pre|) == |digits|
  {
    var s := pre + digits + rest;
    var k := |pre|;
    assert forall j :: k <= j < k + |digits| ==> s[j] == digits[j - k];
    assert k + |digits| < |s| ==> s[k + |digits|] == rest[0];
  }

  lemma HostAndPathOfLink(pre: string, path: string, tail: string)
    ensures PyText.OccursAt(pre + PixivHost + path + tail, PixivHost, |pre|)
    ensures PyText.OccursAt(pre + PixivHost + path + tail, path, |pre| + 14)
  {
    var s := pre + PixivHost + path + tail;
    assert s == pre + PixivHost + (path + tail);
    assert s[|pre|..|pre| + 14] == PixivHost;
    assert s[|pre| + 14..|pre| + 14 + |path|] == path;
  }

  /** The pattern matches an artwork page link where its host starts, up to the end of its number. */
  lemma PixivAtOfArtworkPage(pre: string, path: string, digits: string, rest: string)
    requires path == "en/artworks/" || path == "artworks/"
    requires digits != [] && PyText.AllDigits(digits)
    requires rest == [] || !PyText.IsDigit(rest[0])
    ensures PixivAt(pre + PixivHost + path + digits + rest, |pre|) == Some(PixivHost + path + digits)
  {
    var link := PixivHost + path + digits;
    var s := pre + PixivHost + path + digits + rest;
    assert s == pre + link + rest;
    HostAndPathOfLink(pre, path, digits + rest);
    assert pre + PixivHost + path + (digits + rest) == s;
    ArtworkStartOfPath(s, |pre| + 14, path);
    DigitRunOfNumber(pre + PixivHost + path, digits, rest);
    assert s[|pre|..|pre| + |link|] == link;
  }

  /**
   * The host cannot start inside a prefix that does not contain it: its only '/' is its
   * last character, so no end of the prefix can begin it.
   */
  lemma NoHostInPrefix(pre: string, tail: string, j: nat)
    requires !PyText.Contains(pre, PixivHost) && j < |pre|
    ensures !PyText.OccursAt(pre + PixivHost + tail, PixivHost, j)
  {
    var s := pre + PixivHost + tail;
    if j + 14 <= |pre| {
      assert s[j..j + 14] == pre[j..j + 14];
      assert !PyText.OccursAt(pre, PixivHost, j);
    } else {
      assert s[j + 13] == PixivHost[j + 13 - |pre|] != '/';
      assert s[j..j + 14][13] == s[j + 13];
    }
  }

  /**
   * An artwork page link, with or without "en/", behind any text that does not hold the
   * host (a scheme, a message) and followed by anything that does not continue its number
   * (a query, a slash, nothing), is accepted as host, path and number.
   */
  lemma PixivLinkOfArtworkPage(pre: string, path: string, digits: string, rest: string)
    requires !PyText.Contains(pre, PixivHost)
    requires path == "en/artworks/" || path == "artworks/"
    requires digits != [] && PyText.AllDigits(digits)
    requires rest == [] || !PyText.IsDigit(rest[0])
    ensures PixivLink(pre + PixivHost + path + digits + rest) == Some(PixivHost + path + digits)
  {
    var s := pre + PixivHost + path + digits + rest;
    PixivAtOfArtworkPage(pre, path, digits, rest);
    forall j | 0 <= j < |pre|
      ensures PixivAt(s, j).None?
    {
      assert s == pre + PixivHost + (path + digits + rest);
      NoHostInPrefix(pre, path + digits + rest, j);
    }
  }

  /** The link of an English artwork page, with a scheme before it and a query behind its number, is accepted. */
  lemma PixivLinkOfEnglishPage()
    ensures PixivLink("https://" + PixivHost + "en/artworks/" + "123" + "?p=1") == Some(PixivHost + "en/artworks/" + "123")
  {
    var pre := "https://";
    PixivLinkOfArtworkPage(pre, "en/artworks/", "123", "?p=1");
  }

  /** Every match holds "artworks/". */
  lemma ArtworksInMatch(s: string, i: nat)
    ensures PixivAt(s, i).Some? ==> PyText.Contains(s, "artworks/")
  {
    var j := i + 14;
    if PyText.OccursAt(s, PixivHost, i) && PyText.OccursAt(s, "en/artworks/", j) {
      assert s[j + 3..j + 12] == s[j..j + 12][3..];
      assert PyText.OccursAt(s, "artworks/", j + 3);
    } else if PyText.OccursAt(s, PixivHost, i) && PyText.OccursAt(s, "artworks/", j) {
      assert PyText.OccursAt(s, "artworks/", j);
    }
  }

  /** A link without "artworks/" in it is rejected. */
  lemma PixivLinkNeedsArtworks(s: string)
    requires !PyText.Contains(s, "artworks/")
    ensures PixivLink(s).None?
  {
    forall i | 0 <= i <= |s|
      ensures PixivAt(s, i).None?
    {
      ArtworksInMatch(s, i);
    }
  }

  /** An accepted link contains an artwork page link, and that link is what is extracted. */
  lemma PixivLinkIsArtworkPage(s: string)
    requires PixivLink(s).Some?
    ensures exists i, path, digits :: PyText.OccursAt(s, PixivLink(s).value, i)
                                      && IsArtworkPage(PixivLink(s).value, path, digits)
  {
    var i :| 0 <= i <= |s| && PixivAt(s, i) == PixivLink(s);
    PixivAtIsArtworkPage(s, i);
    var path, digits :| IsArtworkPage(PixivAt(s, i).value, path, digits);
    assert PyText.OccursAt(s, PixivLink(s).value, i);
  }

  // ---------------------------------------------------------------------------
  // The downloader's error line `File size larger than allowed maximum \((\d+) > (\d+)\)`

  const SizeErrorPrefix := "File size larger than allowed maximum ("

  /** `t` starts with `w`. */
  predicate StartsWith(t: string, w: string) {
    |w| <= |t| && t[..|w|] == w
  }

  /**
   * The pattern from just after its opening parenthesis: digits, " > ", digits and the
   * closing parenthesis; the two runs of digits.
   */
  function Sizes(t: string): (m: Option<(string, string)>)
    ensures m.Some? ==> m.value.0 != [] && m.value.1 != []
                        && PyText.AllDigits(m.value.0) && PyText.AllDigits(m.value.1)
  {
    var n := DigitRun(t, 0);
    if n > 0 && StartsWith(t[n..], " > ") then
      var u := t[n..][3..];
      var k := DigitRun(u, 0);
      if k > 0 && StartsWith(u[k..], ")") then Some((t[..n], u[..k])) else None
    else None
  }

  /** The pattern at index `i`: its two groups of digits. */
  function SizeErrorAt(s: string, i: nat): (m: Option<(string, string)>)
    ensures m.Some? ==> m.value.0 != [] && m.value.1 != []
                        && PyText.AllDigits(m.value.0) && PyText.AllDigits(m.value.1)
  {
    if i <= |s| && StartsWith(s[i..], SizeErrorPrefix) then Sizes(s[i..][|SizeErrorPrefix|..]) else None
  }

  /** `re.search` of the error pattern in the process's error output. */
  function SizeError(s: string): (m: Option<(string, string)>)
    ensures m.None? <==> forall i :: 0 <= i <= |s| ==> SizeErrorAt(s, i).None?
    ensures m.Some? ==> exists i :: 0 <= i <= |s| && SizeErrorAt(s, i) == m
                                   && forall j :: 0 <= j < i ==> SizeErrorAt(s, j).None?
  {
    var matchAt := (i: nat) => SizeErrorAt(s, i);
    assert forall i: nat :: matchAt(i) == SizeErrorAt(s, i);
    PyText.Leftmost(matchAt, 0, |s|)
  }

  /** `pixiv.*` in the process's output: from "pixiv" to the end of that line. */
  function DownloadedAt(s: string, i: nat): (m: Option<string>)
    ensures m.Some? <==> PyText.OccursAt(s, "pixiv", i)
    ensures m.Some? ==> PyText.OccursAt(s, m.value, i) && |m.value| >= 5 && m.value[..5] == "pixiv"
    ensures m.Some? ==> (forall k :: 0 <= k < |m.value| ==> m.value[k] != '\n')
                        && (i + |m.value| == |s| || s[i + |m.value|] == '\n')
  {
    if PyText.OccursAt(s, "pixiv", i) then
      var n := LineLength(s, i);
      assert s[i..i + n][..5] == s[i..i + 5];
      Some(s[i..i + n])
    else None
  }

  /** The number of characters from `i` to the next line break or the end. */
  function LineLength(s: string, i: nat): (n: nat)
    requires i <= |s|
    ensures i + n <= |s| && forall k :: i <= k < i + n ==> s[k] != '\n'
    ensures i + n == |s| || s[i + n] == '\n'
    decreases |s| - i
  {
    if i < |s| && s[i] != '\n' then 1 + LineLength(s, i + 1) else 0
  }

  /** `re.search` of `pixiv.*` in the output: the leftmost match, or None. */
  function DownloadedPath(stdout: string): (m: Option<string>)
    ensures m.None? <==> forall i :: 0 <= i <= |stdout| ==> DownloadedAt(stdout, i).None?
    ensures m.Some? ==> exists i :: 0 <= i <= |stdout| && DownloadedAt(stdout, i) == m
                                   && forall j :: 0 <= j < i ==> DownloadedAt(stdout, j).None?
  {
    var matchAt := (i: nat) => DownloadedAt(stdout, i);
    assert forall i: nat :: matchAt(i) == DownloadedAt(stdout, i);
    PyText.Leftmost(matchAt, 0, |stdout|)
  }

  /** The command line `pixiv` hands to the shell. */
  function GalleryDlCommand(link: string, imageNumber: int, maxFileSize: int): string {
    "gallery-dl " + link + " --range " + PyText.IntToString(imageNumber)
    + " --ugoira-conv --filesize-max " + PyText.IntToString(maxFileSize) + "M"
  }

  /** What `pixiv` runs and replies: no command at all for a link the pattern rejects. */
  datatype PixivOutcome = PixivOutcome(command: Option<string>, replies: seq<Reply>)

  /**
   * `pixiv` (lines 41-98): a rejected link gets the invalid-link reply and nothing else;
   * otherwise the matched link is downloaded and a failed download reports either the
   * sizes of its size error or its whole error output.
   */
  function Pixiv(pixivLink: string, imageNumber: int, maxFileSize: int, sharedBy: string, proc: Process): (r: PixivOutcome)
    ensures r.command.None? <==> PixivLink(pixivLink).None?
    ensures r.command.None? ==> r.replies == [Respond(InvalidLinkMsg)]
    ensures r.command.Some? ==> |r.replies| == 2 && r.replies[0] == Defer
                                && r.command.value == GalleryDlCommand(PixivLink(pixivLink).value, imageNumber, maxFileSize)
    ensures r.command.Some? && proc.returncode != 0 && SizeError(proc.stderr).Some? ==>
              r.replies[1] == TooBig(PyText.DecimalValue(SizeError(proc.stderr).value.0),
                                     PyText.DecimalValue(SizeError(proc.stderr).value.1))
    ensures r.command.Some? && proc.returncode != 0 && SizeError(proc.stderr).None? ==>
              r.replies[1] == Followup("Something went wrong: \n" + proc.stderr)
    ensures r.command.Some? && proc.returncode == 0 ==> r.replies[1].Upload? || r.replies[1] == Raise
  {
    match PixivLink(pixivLink)
    case None => PixivOutcome(None, [Respond(InvalidLinkMsg)])
    case Some(link) =>
      var command := GalleryDlCommand(link, imageNumber, maxFileSize);
      var last :=
        if proc.returncode != 0 then
          match SizeError(proc.stderr)
          case Some(sizes) => TooBig(PyText.DecimalValue(sizes.0), PyText.DecimalValue(sizes.1))
          case None => Followup("Something went wrong: \n" + proc.stderr)
        else
          match DownloadedPath(proc.stdout)
          case None => Raise
          case Some(path) => Upload("./volume/gallery-dl/" + path, sharedBy, pixivLink);
      PixivOutcome(Some(command), [Defer, last])
  }

  /** The error line with sizes `a` and `b`, the way gallery-dl words it. */
  function SizeErrorLine(a: string, b: string): string {
    SizeErrorPrefix + (a + (" > " + (b + ")")))
  }

  /** What follows `w` in `w + x`. */
  lemma AfterJoin(w: string, x: string)
    ensures StartsWith(w + x, w) && (w + x)[|w|..] == x
  {
    assert (w + x)[..|w|] == w;
  }

  /** A run of digits at the start, then a non-digit, is read whole. */
  lemma DigitRunAtStart(digits: string, rest: string)
    requires PyText.AllDigits(digits)
    requires rest != [] && !PyText.IsDigit(rest[0])
    ensures DigitRun(digits + rest, 0) == |digits| && (digits + rest)[..|digits|] == digits
  {
    DigitRunOfNumber([], digits, rest);
    assert [] + digits + rest == digits + rest;
  }

  /** The part after the opening parenthesis yields the two numbers. */
  lemma SizesOf(a: string, b: string)
    requires a != [] && PyText.AllDigits(a) && b != [] && PyText.AllDigits(b)
    ensures Sizes(a + (" > " + (b + ")"))) == Some((a, b))
  {
    var t := a + (" > " + (b + ")"));
    DigitRunAtStart(a, " > " + (b + ")"));
    AfterJoin(a, " > " + (b + ")"));
    AfterJoin(" > ", b + ")");
    DigitRunAtStart(b, ")");
    AfterJoin(b, ")");
  }

  lemma SizeErrorAtOfLine(a: string, b: string)
    requires a != [] && PyText.AllDigits(a) && b != [] && PyText.AllDigits(b)
    ensures SizeErrorAt(SizeErrorLine(a, b), 0) == Some((a, b))
  {
    var s := SizeErrorLine(a, b);
    assert s[0..] == s;
    AfterJoin(SizeErrorPrefix, a + (" > " + (b + ")")));
    SizesOf(a, b);
  }

  /** A size error names the image's size first and the maximum second. */
  lemma SizeErrorOfLine(a: string, b: string)
    requires a != [] && PyText.AllDigits(a) && b != [] && PyText.AllDigits(b)
    ensures SizeError(SizeErrorLine(a, b)) == Some((a, b))
  {
    var s := SizeErrorLine(a, b);
    SizeErrorAtOfLine(a, b);
    var matchAt := (i: nat) => SizeErrorAt(s, i);
    assert matchAt(0) == SizeErrorAt(s, 0);
    assert PyText.Leftmost(matchAt, 0, |s|) == matchAt(0);
  }

  /** The too-big reply reports the image's size and the maximum from the error line. */
  lemma PixivReportsSizes(link: string, imageNumber: int, maxFileSize: int, sharedBy: string, stdout: string,
                          returncode: int, a: string, b: string)
    requires PixivLink(link).Some? && returncode != 0
    requires a != [] && PyText.AllDigits(a) && b != [] && PyText.AllDigits(b)
    ensures Pixiv(link, imageNumber, maxFileSize, sharedBy, Process(returncode, stdout, SizeErrorLine(a, b))).replies
            == [Defer, TooBig(PyText.DecimalValue(a), PyText.DecimalValue(b))]
  {
    SizeErrorOfLine(a, b);
  }

  // ---------------------------------------------------------------------------
  // forex

  /** The Yahoo Finance symbol: the start currency is dropped when it is USD, in any case. */
  function ForexSymbol(start: string, target: string): (symbol: string)
    ensures PyText.Lower(start) == "usd" ==> symbol == target + "=X"
    ensures PyText.Lower(start) != "usd" ==> symbol == start + target + "=X"
  {
    if PyText.Lower(start) != "usd" then start + target + "=X" else target + "=X"
  }

  /** The amount guard `0 < amount < 1e10`. */
  predicate InRange(amount: real) {
    0.0 < amount < 10000000000.0
  }

  /**
   * `forex`: the deferral, then the range reply for an amount out of range, the failure
   * reply when the quote service fails, or the conversion at the closing rate.
   */
  function Forex(amount: real, start: string, target: string, quoteFor: string -> Quote): (replies: seq<Reply>)
    ensures |replies| == 2 && replies[0] == Defer
    ensures replies[1] == Followup(RangeMsg) <==> !InRange(amount)
    ensures replies[1].Converted? ==> InRange(amount) && quoteFor(ForexSymbol(start, target)).Close?
  {
    if !InRange(amount) then [Defer, Followup(RangeMsg)]
    else
      match quoteFor(ForexSymbol(start, target))
      case QuoteFailed => [Defer, Followup(QuoteFailedMsg)]
      case Close(rate) =>
        [Defer, Converted(amount, PyText.Upper(start), rate * amount, PyText.Upper(target))]
  }

  /** Converting from US dollars asks for the target's own symbol. */
  lemma ForexFromDollars(target: string)
    ensures ForexSymbol("USD", target) == target + "=X" && ForexSymbol("usd", target) == target + "=X"
    ensures ForexSymbol("HKD", target) == "HKD" + target + "=X"
  {
    assert PyText.Lower("USD") == "usd";
    assert PyText.Lower("HKD") == "hkd";
  }
}
