/**
 * The shared HTTP client of the web front end: the initials avatar used
 * wherever a user has no picture, the picture URL choice, the cache-busting
 * request interceptor, the 401 response interceptor, and the header choice
 * of the profile calls.
 */
module ApiClient {
  import opened Common

  const API_BASE: string := "http://127.0.0.1:5000"
  /** The placeholder image service; the avatar text follows `text=`. */
  const AVATAR_BASE: string := "https://placehold.co/100/ff0000/ffffff?text="
  const FALLBACK_INITIALS: string := "US"
  const LOGIN_REDIRECT: string := "/login?session_expired=true"

  // ------------------------------------------------------------ initials

  /** The characters of `s` that are not white space, in order. */
  function WithoutSpaces(s: string): string
  {
    if s == [] then [] else (if IsSpace(s[0]) then [] else [s[0]]) + WithoutSpaces(s[1..])
  }

  /** Dropping leading white space keeps the characters that are not white space. */
  lemma {:induction false} SkipSpacesKeepsRest(s: string, n: nat)
    requires n <= |s| && forall i :: 0 <= i < n ==> IsSpace(s[i])
    ensures WithoutSpaces(s[n..]) == WithoutSpaces(s)
  {
    if n > 0 {
      SkipSpacesKeepsRest(s[1..], n - 1);
      assert s[1..][n - 1..] == s[n..];
    }
  }

  /**
   * `.replace(/\s+/g, " ")`: every run of white space becomes one space, so
   * no two spaces are adjacent, and the other characters keep their order.
   */
  function CollapseSpaces(s: string): (r: string)
    ensures forall c :: c in r ==> c == ' ' || (c in s && !IsSpace(c))
    ensures forall i :: 0 <= i < |r| - 1 ==> !(r[i] == ' ' && r[i + 1] == ' ')
    ensures WithoutSpaces(r) == WithoutSpaces(s)
    ensures s != [] ==> r != [] && (r[0] == ' ' <==> IsSpace(s[0]))
    decreases |s|
  {
    if s == [] then []
    else if IsSpace(s[0]) then
      var n := LeadingSpaces(s);
      var t := CollapseSpaces(s[n..]);
      SkipSpacesKeepsRest(s, n);
      assert ([' '] + t)[1..] == t;
      [' '] + t
    else
      var t := CollapseSpaces(s[1..]);
      assert ([s[0]] + t)[1..] == t;
      [s[0]] + t
  }

  /** `.replace(/[^a-zA-Z\s]/g, "")`: only letters and white space stay. */
  function KeepLettersAndSpaces(s: string): (r: string)
    ensures forall c :: c in r <==> c in s && (IsLetter(c) || IsSpace(c))
  {
    if s == [] then []
    else if IsLetter(s[0]) || IsSpace(s[0]) then [s[0]] + KeepLettersAndSpaces(s[1..])
    else KeepLettersAndSpaces(s[1..])
  }

  /** The user name as the initials are taken from it: trimmed, spaces collapsed, non-letters dropped. */
  function Cleaned(name: string): (r: string)
    ensures forall c :: c in r ==> c == ' ' || (IsLetter(c) && c in name)
  {
    var t := Strip(name);
    assert forall c :: c in t ==> c in name;
    KeepLettersAndSpaces(CollapseSpaces(t))
  }

  /** `w[0]?.toUpperCase() || ""` before the upper-casing: the first character, if any. */
  function FirstChar(w: string): (r: string)
    ensures |r| <= 1 && (r == [] <==> w == []) && (w != [] ==> r[0] == w[0])
  {
    if w == [] then [] else [w[0]]
  }

  /** The characters the initials are made of: two of a single word, or the first of each of the first two words. */
  function Picked(words: seq<string>): (r: string)
    requires |words| >= 1
    ensures forall c :: c in r ==> c in words[0] || (|words| > 1 && c in words[1])
  {
    if |words| == 1 then words[0][..Min(2, |words[0]|)] else FirstChar(words[0]) + FirstChar(words[1])
  }

  /**
   * The initials of a user name: the first two letters of a single word, or
   * the first letter of each of the first two words, upper-cased. They are
   * at most two upper-case letters, each the capital of a letter of the name.
   */
  function Initials(name: string): (r: string)
    ensures |r| <= 2
    ensures forall i :: 0 <= i < |r| ==> IsUpper(r[i])
    ensures forall i :: 0 <= i < |r| ==> exists c :: c in name && IsLetter(c) && UpperChar(c) == r[i]
  {
    var cleaned := Cleaned(name);
    var words := Split(cleaned, ' ');
    var picked := Picked(words);
    assert forall c :: c in picked ==> IsLetter(c) && c in name by {
      forall c | c in picked ensures IsLetter(c) && c in name {
        if c in words[0] {
          SplitPieceChars(cleaned, ' ', 0, c);
        } else {
          SplitPieceChars(cleaned, ' ', 1, c);
        }
      }
    }
    var r := Upper(picked);
    assert forall i :: 0 <= i < |r| ==> picked[i] in picked && UpperChar(picked[i]) == r[i];
    r
  }

  /**
   * `getInitialsAvatar`: the placeholder image showing the initials, or
   * "US" for a missing or empty name and for a name none of whose first two
   * words holds a letter. The text shown is one or two capitals, so
   * `encodeURIComponent` leaves it unchanged.
   */
  function InitialsAvatar(username: Option<string>): (r: string)
    ensures |r| > |AVATAR_BASE| && r[..|AVATAR_BASE|] == AVATAR_BASE
    ensures 1 <= |r| - |AVATAR_BASE| <= 2
    ensures forall i :: |AVATAR_BASE| <= i < |r| ==> IsUpper(r[i])
    ensures !Truthy(username) ==> r == AVATAR_BASE + FALLBACK_INITIALS
  {
    if !Truthy(username) then AVATAR_BASE + FALLBACK_INITIALS
    else
      var initials := Initials(username.value);
      AVATAR_BASE + (if initials != "" then initials else FALLBACK_INITIALS)
  }

  /** A name without any letter shows the "US" placeholder. */
  lemma NoLettersShowsFallback(name: string)
    requires forall c :: c in name ==> !IsLetter(c)
    ensures InitialsAvatar(Some(name)) == AVATAR_BASE + FALLBACK_INITIALS
  {
  }

  /** Letters and single spaces only, starting and ending with a letter. */
  predicate WordsText(s: string)
  {
    s != [] && IsLetter(s[0]) && IsLetter(s[|s| - 1])
    && forall i :: 0 <= i < |s| ==> IsLetter(s[i]) || (s[i] == ' ' && i + 1 < |s| && IsLetter(s[i + 1]))
  }

  /** The number of leading white space characters of a run followed by text that starts with none. */
  lemma LeadingSpacesOfRun(run: string, t: string)
    requires forall i :: 0 <= i < |run| ==> IsSpace(run[i])
    requires t == [] || !IsSpace(t[0])
    ensures LeadingSpaces(run + t) == |run|
  {
    assert forall i :: 0 <= i < |run| ==> (run + t)[i] == run[i];
    assert t != [] ==> (run + t)[|run|] == t[0];
  }

  /** A whole run of white space at the front becomes one space. */
  lemma CollapseRun(run: string, t: string)
    requires run != [] && forall i :: 0 <= i < |run| ==> IsSpace(run[i])
    requires t == [] || !IsSpace(t[0])
    ensures CollapseSpaces(run + t) == [' '] + CollapseSpaces(t)
  {
    LeadingSpacesOfRun(run, t);
    assert (run + t)[0] == run[0];
    assert (run + t)[|run|..] == t;
  }

  /** Dropping a prefix of the first part of a concatenation. */
  lemma DropFromConcat<T>(a: seq<T>, n: nat, b: seq<T>)
    requires n <= |a|
    ensures (a + b)[n..] == a[n..] + b
  {
  }

  lemma ConcatAssoc<T>(x: seq<T>, y: seq<T>, z: seq<T>)
    ensures x + (y + z) == (x + y) + z
  {
  }

  /** Text that starts with white space and does not end in it keeps its leading run whatever follows it. */
  lemma LeadingSpacesOfConcat(a: string, b: string)
    requires a != [] && IsSpace(a[0]) && !IsSpace(a[|a| - 1])
    ensures LeadingSpaces(a) < |a| && LeadingSpaces(a + b) == LeadingSpaces(a)
  {
    var n := LeadingSpaces(a);
    assert a + b == a[..n] + (a[n..] + b);
    LeadingSpacesOfRun(a[..n], a[n..] + b);
  }

  lemma CollapseOfSpace(s: string)
    requires s != [] && IsSpace(s[0])
    ensures CollapseSpaces(s) == [' '] + CollapseSpaces(s[LeadingSpaces(s)..])
  {
  }

  lemma CollapseOfChar(s: string)
    requires s != [] && !IsSpace(s[0])
    ensures CollapseSpaces(s) == [s[0]] + CollapseSpaces(s[1..])
  {
  }

  /** Text that does not end in white space collapses on its own, apart from what follows it. */
  lemma {:induction false} CollapseConcat(a: string, b: string)
    requires a == [] || !IsSpace(a[|a| - 1])
    ensures CollapseSpaces(a + b) == CollapseSpaces(a) + CollapseSpaces(b)
    decreases |a|
  {
    if a == [] {
      assert a + b == b;
    } else {
      assert (a + b)[0] == a[0];
      var n: nat, head: string;
      if IsSpace(a[0]) {
        LeadingSpacesOfConcat(a, b);
        n, head := LeadingSpaces(a), [' '];
        CollapseOfSpace(a);
        CollapseOfSpace(a + b);
      } else {
        n, head := 1, [a[0]];
        CollapseOfChar(a);
        CollapseOfChar(a + b);
      }
      var rest := a[n..];
      DropFromConcat(a, n, b);
      assert rest == [] || rest[|rest| - 1] == a[|a| - 1];
      CollapseConcat(rest, b);
      ConcatAssoc(head, CollapseSpaces(rest), CollapseSpaces(b));
    }
  }

  /** A run of white space between two pieces of text becomes exactly one space between their collapsed forms. */
  lemma CollapseInnerRun(a: string, run: string, b: string)
    requires a != [] && !IsSpace(a[|a| - 1])
    requires run != [] && forall i :: 0 <= i < |run| ==> IsSpace(run[i])
    requires b == [] || !IsSpace(b[0])
    ensures CollapseSpaces(a + run + b) == CollapseSpaces(a) + [' '] + CollapseSpaces(b)
  {
    ConcatAssoc(a, run, b);
    CollapseConcat(a, run + b);
    CollapseRun(run, b);
    ConcatAssoc(CollapseSpaces(a), [' '], CollapseSpaces(b));
  }

  /** Text whose white space is single plain spaces is left as it is by the collapsing. */
  lemma {:induction false} CollapseKeepsSingleSpaces(s: string)
    requires forall i :: 0 <= i < |s| && IsSpace(s[i]) ==> s[i] == ' ' && (i + 1 == |s| || !IsSpace(s[i + 1]))
    ensures CollapseSpaces(s) == s
    decreases |s|
  {
    if s != [] {
      if IsSpace(s[0]) {
        assert LeadingSpaces(s) == 1 by {
          assert |s| == 1 || !IsSpace(s[1]);
          assert LeadingSpaces(s) == 1 + LeadingSpaces(s[1..]);
        }
      }
      assert forall i :: 0 <= i < |s| - 1 ==> s[1..][i] == s[i + 1];
      CollapseKeepsSingleSpaces(s[1..]);
      assert s == [s[0]] + s[1..];
    }
  }

  lemma {:induction false} KeepLettersAndSpacesIdentity(s: string)
    requires forall i :: 0 <= i < |s| ==> IsLetter(s[i]) || IsSpace(s[i])
    ensures KeepLettersAndSpaces(s) == s
  {
    if s != [] {
      KeepLettersAndSpacesIdentity(s[1..]);
      assert s == [s[0]] + s[1..];
    }
  }

  /** A name already made of words separated by single spaces is its own cleaned form. */
  lemma CleanedWordsText(s: string)
    requires WordsText(s)
    ensures Cleaned(s) == s
  {
    assert Strip(s) == s by { WordsTextStripped(s); }
    assert CollapseSpaces(s) == s by {
      WordsTextSingleSpaces(s);
      CollapseKeepsSingleSpaces(s);
    }
    forall i | 0 <= i < |s| ensures IsLetter(s[i]) || IsSpace(s[i]) {
      WordsTextAt(s, i);
    }
    KeepLettersAndSpacesIdentity(s);
  }

  lemma WordsTextStripped(s: string)
    requires WordsText(s)
    ensures Strip(s) == s
  {
    assert LeadingSpaces(s) == 0;
    assert !IsSpace(s[|s| - 1]);
    assert |Strip(s)| == |s|;
  }

  lemma WordsTextSingleSpaces(s: string)
    requires WordsText(s)
    ensures forall i :: 0 <= i < |s| && IsSpace(s[i]) ==> s[i] == ' ' && (i + 1 == |s| || !IsSpace(s[i + 1]))
  {
    forall i | 0 <= i < |s| && IsSpace(s[i])
      ensures s[i] == ' ' && (i + 1 == |s| || !IsSpace(s[i + 1]))
    {
      WordsTextAt(s, i);
    }
  }

  lemma WordsTextAt(s: string, i: int)
    requires WordsText(s) && 0 <= i < |s|
    ensures IsLetter(s[i]) || (s[i] == ' ' && i + 1 < |s| && IsLetter(s[i + 1]))
  {
  }

  /** Joining non-empty words of letters with single spaces gives words text. */
  lemma {:induction false} JoinWordsText(ws: seq<string>)
    requires |ws| >= 1
    requires forall k :: 0 <= k < |ws| ==> ws[k] != [] && forall i :: 0 <= i < |ws[k]| ==> IsLetter(ws[k][i])
    ensures WordsText(Join(ws, " "))
  {
    if |ws| > 1 {
      JoinWordsText(ws[1..]);
      var tail := Join(ws[1..], " ");
      var s := Join(ws, " ");
      assert s == ws[0] + " " + tail;
      assert s[|s| - 1] == tail[|tail| - 1];
      forall i | 0 <= i < |s|
        ensures IsLetter(s[i]) || (s[i] == ' ' && i + 1 < |s| && IsLetter(s[i + 1]))
      {
        if i < |ws[0]| {
          assert s[i] == ws[0][i];
        } else if i == |ws[0]| {
          assert s[i + 1] == tail[0];
        } else {
          assert s[i] == tail[i - |ws[0]| - 1];
          if i + 1 < |s| { assert s[i + 1] == tail[i - |ws[0]|]; }
        }
      }
    }
  }

  /** Words of letters joined with single spaces are cleaned and split back into themselves. */
  lemma WordsSplitBack(ws: seq<string>)
    requires |ws| >= 1
    requires forall k :: 0 <= k < |ws| ==> ws[k] != [] && forall i :: 0 <= i < |ws[k]| ==> IsLetter(ws[k][i])
    ensures Split(Cleaned(Join(ws, " ")), ' ') == ws
  {
    var s := Join(ws, " ");
    JoinWordsText(ws);
    CleanedWordsText(s);
    assert forall k :: 0 <= k < |ws| ==> ' ' !in ws[k];
    SplitJoin(ws, ' ');
  }

  /**
   * The initials of words of letters separated by single spaces: the first
   * two letters of a single word, otherwise the first letters of the first
   * two words, in capitals.
   */
  lemma InitialsOfWords(ws: seq<string>)
    requires |ws| >= 1
    requires forall k :: 0 <= k < |ws| ==> ws[k] != [] && forall i :: 0 <= i < |ws[k]| ==> IsLetter(ws[k][i])
    ensures |ws| == 1 ==> Initials(Join(ws, " ")) == Upper(ws[0][..Min(2, |ws[0]|)])
    ensures |ws| > 1 ==> Initials(Join(ws, " ")) == Upper([ws[0][0], ws[1][0]])
  {
    assert Initials(Join(ws, " ")) == Upper(Picked(ws)) by { WordsSplitBack(ws); }
    if |ws| > 1 {
      assert FirstChar(ws[0]) + FirstChar(ws[1]) == [ws[0][0], ws[1][0]];
    }
  }

  /** The cleaning of "a 1 b" drops the digit and keeps both spaces around it. */
  lemma CleanedOfDigitName()
    ensures Cleaned("a 1 b") == "a  b"
  {
    StripOfDigitName();
    CollapseKeepsSingleSpaces("a 1 b");
    KeepOfDigitName();
  }

  lemma StripOfDigitName()
    ensures Strip("a 1 b") == "a 1 b"
  {
    var name := "a 1 b";
    assert LeadingSpaces(name) == 0;
    var t := Strip(name);
    assert !IsSpace(name[4]);
    assert |t| == 5;
  }

  lemma KeepOfDigitName()
    ensures KeepLettersAndSpaces("a 1 b") == "a  b"
  {
    var e: string := [];
    var s1 := ['b'] + e;
    var s2 := [' '] + s1;
    var s3 := ['1'] + s2;
    var s4 := [' '] + s3;
    var s5 := ['a'] + s4;
    assert KeepLettersAndSpaces(e) == e;
    KeepKept('b', e);
    KeepKept(' ', s1);
    KeepDropped('1', s2);
    KeepKept(' ', s3);
    KeepKept('a', s4);
    Nested4('a', ' ', ' ', 'b');
    Nested5('a', ' ', '1', ' ', 'b');
  }

  /**
   * Prepending one element at a time builds the display of the elements:
   * stated for any element type so that the solver does not reason about
   * the characters.
   */
  lemma Nested4<T>(a: T, b: T, c: T, d: T)
    ensures [a] + ([b] + ([c] + ([d] + []))) == [a, b, c, d]
  {
  }

  lemma Nested5<T>(a: T, b: T, c: T, d: T, e: T)
    ensures [a] + ([b] + ([c] + ([d] + ([e] + [])))) == [a, b, c, d, e]
  {
  }

  lemma KeepKept(c: char, t: string)
    requires IsLetter(c) || IsSpace(c)
    ensures KeepLettersAndSpaces([c] + t) == [c] + KeepLettersAndSpaces(t)
  {
    assert ([c] + t)[1..] == t;
  }

  lemma KeepDropped(c: char, t: string)
    requires !IsLetter(c) && !IsSpace(c)
    ensures KeepLettersAndSpaces([c] + t) == KeepLettersAndSpaces(t)
  {
    assert ([c] + t)[1..] == t;
  }

  /** Two adjacent spaces split into an empty middle word. */
  lemma SplitOfDoubleSpace()
    ensures Split("a  b", ' ') == ["a", "", "b"]
  {
    var words := ["a", "", "b"];
    assert words[1..] == ["", "b"] && words[2..] == ["b"];
    assert Join(["", "b"], [' ']) == " b";
    assert Join(words, [' ']) == "a  b";
    SplitJoin(words, ' ');
  }

  /** "a 1 b": the dropped digit leaves an empty middle word, so only "A" remains. */
  lemma RemovedTokenLeavesEmptyWord()
    ensures Initials("a 1 b") == "A"
  {
    var words := Split(Cleaned("a 1 b"), ' ');
    assert words == ["a", "", "b"] by {
      CleanedOfDigitName();
      SplitOfDoubleSpace();
    }
    assert Initials("a 1 b") == Upper(Picked(words)) by { InitialsOfCleanedWords("a 1 b"); }
    assert Picked(words) == "a";
    assert Upper("a") == "A" by { assert UpperChar('a') == 'A'; }
  }

  lemma InitialsOfCleanedWords(name: string)
    ensures Initials(name) == Upper(Picked(Split(Cleaned(name), ' ')))
  {
  }

  // ------------------------------------------------------------- pictures

  /**
   * `getProfilePicture`: a stored picture starting with "http" as it is,
   * any other stored picture under `API_BASE`; without one the user's
   * avatar, else the initials avatar. The result is never empty.
   */
  function ProfilePicture(picture: Option<string>, avatar: Option<string>, username: Option<string>): (r: string)
    ensures r != []
    ensures Truthy(picture) && StartsWith(picture.value, "http") ==> r == picture.value
    ensures Truthy(picture) && !StartsWith(picture.value, "http") ==> r == API_BASE + picture.value
    ensures !Truthy(picture) && Truthy(avatar) ==> r == avatar.value
    ensures !Truthy(picture) && !Truthy(avatar) ==> r == InitialsAvatar(username)
  {
    if Truthy(picture) then
      if StartsWith(picture.value, "http") then picture.value else API_BASE + picture.value
    else if Truthy(avatar) then avatar.value
    else InitialsAvatar(username)
  }

  // ---------------------------------------------------------- interceptors

  /** The URL a request leaves with: GET URLs get `_t=<now>` after "&" when they already have a query, "?" otherwise. */
  function Stamped(verb: string, url: string, now: nat): (r: string)
    ensures |r| >= |url| && r[..|url|] == url
    ensures verb != "get" ==> r == url
    ensures verb == "get" ==> |r| == |url| + 4 + |NatToString(now)| && r[|url| + 1..] == "_t=" + NatToString(now)
    ensures verb == "get" ==> r[|url|] == (if '?' in url then '&' else '?')
    ensures verb == "get" ==> IndexOf(r, '?') == (if '?' in url then IndexOf(url, '?') else Some(|url|))
  {
    if verb == "get" then
      var sep := if '?' in url then "&" else "?";
      var r := url + sep + "_t=" + NatToString(now);
      assert r[..|url|] == url;
      assert r[|url|] == sep[0];
      assert r[|url| + 1..] == "_t=" + NatToString(now);
      assert '?' in url ==> IndexOf(r, '?') == IndexOf(url, '?') by {
        if '?' in url {
          var k := IndexOf(url, '?').value;
          assert r[k] == '?' && r[..k] == url[..k];
        }
      }
      r
    else url
  }

  /** A request as the interceptor sees it: its verb (lower case) and URL. */
  class RequestConfig {
    var verb: string
    var url: string

    constructor(verb: string, url: string)
      ensures this.verb == verb && this.url == url
    {
      this.verb := verb;
      this.url := url;
    }
  }

  /** The request interceptor: only a GET's URL is changed, by appending the timestamp. */
  method StampRequest(config: RequestConfig, now: nat)
    modifies config
    ensures config.verb == old(config.verb)
    ensures config.url == Stamped(old(config.verb), old(config.url), now)
  {
    if config.verb == "get" {
      var sep := if '?' in config.url then "&" else "?";
      config.url := config.url + sep + "_t=" + NatToString(now);
    }
  }

  /** Where a 401 sends the browser: nowhere while the path already contains "/login". */
  function UnauthorizedRedirect(pathname: string): (r: Option<string>)
    ensures r.None? <==> Contains(pathname, "/login")
    ensures r.Some? ==> r.value == LOGIN_REDIRECT
  {
    if Contains(pathname, "/login") then None else Some(LOGIN_REDIRECT)
  }

  /** The path of the redirect target is a login path, so a further 401 there redirects no more. */
  lemma RedirectSettles()
    ensures UnauthorizedRedirect("/login").None?
  {
    assert OccursAt("/login", "/login", 0);
  }

  /** What the 401 interceptor touches: the stored keys, the current path and the navigation target. */
  class Browser {
    var storage: map<string, string>
    var pathname: string
    var href: Option<string>

    constructor(storage: map<string, string>, pathname: string)
      ensures this.storage == storage && this.pathname == pathname && this.href.None?
    {
      this.storage := storage;
      this.pathname := pathname;
      this.href := None;
    }
  }

  /**
   * The response interceptor for a failed request: on a 401 the stored
   * "user" and "token" are removed and the browser is sent to the login
   * page unless it is on one; the error is passed on in every case.
   */
  method OnResponseError(browser: Browser, status: Option<int>) returns (rejected: bool)
    modifies browser
    ensures rejected
    ensures browser.pathname == old(browser.pathname)
    ensures status == Some(401) ==> browser.storage == old(browser.storage) - {"user", "token"}
    ensures status == Some(401) && UnauthorizedRedirect(old(browser.pathname)).Some?
            ==> browser.href == UnauthorizedRedirect(old(browser.pathname))
    ensures status != Some(401) || UnauthorizedRedirect(old(browser.pathname)).None?
            ==> browser.href == old(browser.href)
    ensures status != Some(401) ==> browser.storage == old(browser.storage)
  {
    if status == Some(401) {
      browser.storage := browser.storage - {"user", "token"};
      var target := UnauthorizedRedirect(browser.pathname);
      if target.Some? {
        browser.href := target;
      }
    }
    rejected := true;
  }

  // ----------------------------------------------------------- profile calls

  /** A profile call's body: multipart form data, or a JSON object. */
  datatype Payload = FormData | JsonObject

  /** The Content-Type the call sends: left to the browser (with the multipart boundary), or the client's default. */
  datatype ContentTypeHeader = BrowserChosen | ClientDefault

  datatype Verb = Post | Put

  datatype ProfileCall = ProfileCall(verb: Verb, path: string, header: ContentTypeHeader)

  /**
   * `profileAPI.createProfile` / `updateProfile`: POST or PUT to "/profile";
   * the Content-Type is unset exactly for form data.
   */
  function ProfileApiCall(update: bool, payload: Payload): (r: ProfileCall)
    ensures r.path == "/profile"
    ensures r.verb == Put <==> update
    ensures r.header == BrowserChosen <==> payload == FormData
  {
    var verb := if update then Put else Post;
    match payload
    case FormData => ProfileCall(verb, "/profile", BrowserChosen)
    case JsonObject => ProfileCall(verb, "/profile", ClientDefault)
  }
}
