/** The course page: a hard-coded catalogue keyed by the URL parameter, a
    local fake-purchase flag, and the extraction of a Vimeo video id from
    each lesson's URL. */
module CoursePage {
  import opened Http

  datatype Lesson = Lesson(title: string, url: string)
  datatype CourseEntry = CourseEntry(title: string, price: int, lessons: seq<Lesson>)

  /** A lesson URL as the catalogue writes it: `https://vimeo.com/<number>`. */
  function VimeoUrl(number: string): string {
    Scheme + Marker + number
  }

  /** The catalogue. Its keys are the strings the router hands over, so
      "1" finds the first course and "01" finds nothing. */
  const Catalogue: map<string, CourseEntry> := map[
    "1" := CourseEntry("Eat Your Weeds", 0, [
      Lesson("Nettles", VimeoUrl("1100918662")),
      Lesson("Plantain", VimeoUrl("1100918673")),
      Lesson("Self-heal", VimeoUrl("1100919910"))]),
    "2" := CourseEntry("Flower Power", 0, [
      Lesson("Goldenrod", VimeoUrl("1100918630")),
      Lesson("Musk Mallow", VimeoUrl("1100918653")),
      Lesson("Rose", VimeoUrl("1100918692"))]),
    "3" := CourseEntry("Mediterranean Herbs", 20, [
      Lesson("Rosemary", VimeoUrl("1100919889")),
      Lesson("Sage", VimeoUrl("1100919901")),
      Lesson("Wild Marjoram", VimeoUrl("1100919919"))]),
    "4" := CourseEntry("Amazing Leaves", 20, [
      Lesson("Raspberry Leaf", VimeoUrl("1100918681")),
      Lesson("Blackberry Leaf", VimeoUrl("1100918619")),
      Lesson("Mulberry Leaf", VimeoUrl("1100918642"))])
  ]

  const Scheme := "https://"
  const Marker := "vimeo.com/"

  predicate IsDigit(c: char) {
    '0' <= c <= '9'
  }

  predicate AllDigits(d: string) {
    |d| > 0 && forall k :: 0 <= k < |d| ==> IsDigit(d[k])
  }

  /** The pattern `vimeo\.com\/(\d+)` can start at position `i`: the marker
      is there and at least one digit follows it. */
  predicate MatchesAt(url: string, i: nat) {
    i + |Marker| < |url| && url[i..i + |Marker|] == Marker && IsDigit(url[i + |Marker|])
  }

  /** The length of the run of digits starting at `i` (greedy `\d+`). */
  function DigitRun(s: string, i: nat): (n: nat)
    requires i <= |s|
    ensures i + n <= |s|
    ensures forall k :: i <= k < i + n ==> IsDigit(s[k])
    ensures i + n == |s| || !IsDigit(s[i + n])
    decreases |s| - i
  {
    if i < |s| && IsDigit(s[i]) then 1 + DigitRun(s, i + 1) else 0
  }

  /** The first position at or after `i` where the pattern matches; that
      it is the leftmost such position is `FindMatchLeftmost`. */
  function FindMatch(url: string, i: nat): (r: Option<nat>)
    requires i <= |url|
    ensures r.Some? ==> i <= r.value && MatchesAt(url, r.value)
    decreases |url| - i
  {
    if MatchesAt(url, i) then Some(i)
    else if i == |url| then None
    else FindMatch(url, i + 1)
  }

  /** No position between `i` and the match found matches. */
  lemma {:induction false} FindMatchLeftmost(url: string, i: nat)
    requires i <= |url|
    ensures FindMatch(url, i).Some? ==> forall k :: i <= k < FindMatch(url, i).value ==> !MatchesAt(url, k)
    decreases |url| - i
  {
    if !MatchesAt(url, i) && i < |url| {
      FindMatchLeftmost(url, i + 1);
    }
  }

  /** Nothing is found exactly when no position from `i` on matches. */
  lemma {:induction false} FindMatchNone(url: string, i: nat)
    requires i <= |url|
    ensures FindMatch(url, i).None? <==> forall k :: i <= k <= |url| ==> !MatchesAt(url, k)
    decreases |url| - i
  {
    if !MatchesAt(url, i) && i < |url| {
      FindMatchNone(url, i + 1);
    }
  }

  /** `getVimeoId`: the digits after the leftmost match, or nothing. */
  function VimeoId(url: string): (r: Option<string>)
    ensures r.Some? ==> |r.value| > 0 && forall k :: 0 <= k < |r.value| ==> IsDigit(r.value[k])
  {
    match FindMatch(url, 0)
    case None => None
    case Some(i) =>
      var start := i + |Marker|;
      Some(url[start..start + DigitRun(url, start)])
  }

  /** `getVimeoId` returns nothing exactly when the pattern matches nowhere. */
  lemma VimeoIdNone(url: string)
    ensures VimeoId(url).None? <==> forall k :: 0 <= k <= |url| ==> !MatchesAt(url, k)
  {
    FindMatchNone(url, 0);
  }

  /** The page's state: which course, and the local purchase flag. */
  datatype Page = NotFound | Viewing(course: CourseEntry, hasPurchased: bool)

  const NotFoundText := "Course not found."
  const InvalidVideo := "Invalid video URL"

  /** Opening the page looks the parameter up; a free course starts out
      purchased. */
  function Open(id: string): (p: Page)
    ensures p.NotFound? <==> id !in Catalogue
    ensures p.Viewing? ==> p.course == Catalogue[id] && (p.hasPurchased <==> Catalogue[id].price == 0)
  {
    if id in Catalogue then Viewing(Catalogue[id], Catalogue[id].price == 0) else NotFound
  }

  /** The fake purchase sets the flag and sends nothing. */
  function FakePurchase(p: Page): (r: Page)
    ensures r.Viewing? <==> p.Viewing?
    ensures r.Viewing? ==> r.course == p.course && r.hasPurchased
  {
    match p
    case NotFound => NotFound
    case Viewing(c, _) => Viewing(c, true)
  }

  /** What a lesson shows under its heading: the embedded player for a
      video id, or the invalid-URL text when there is none. */
  datatype Video = Player(id: string) | InvalidUrl(text: string)

  /** One rendered lesson: its 1-based number, its title and its video. */
  datatype LessonView = LessonView(number: nat, title: string, video: Video)

  datatype Screen = NotFoundScreen(text: string) | PurchasePrompt(price: int) | Lessons(views: seq<LessonView>)

  /** `course.lessons.map((lesson, index) => ...)`: lesson i is headed
      "Lesson i+1" with its title, and embeds the player exactly when
      `getVimeoId` finds an id in its URL. */
  function ShowLessons(ls: seq<Lesson>): (r: seq<LessonView>)
    ensures |r| == |ls|
    ensures forall i :: 0 <= i < |r| ==> r[i].number == i + 1 && r[i].title == ls[i].title
    ensures forall i :: 0 <= i < |r| ==> (r[i].video.Player? <==> VimeoId(ls[i].url).Some?)
    ensures forall i :: 0 <= i < |r| && r[i].video.Player? ==> r[i].video.id == VimeoId(ls[i].url).value
    ensures forall i :: 0 <= i < |r| && r[i].video.InvalidUrl? ==> r[i].video.text == InvalidVideo
  {
    seq(|ls|, i requires 0 <= i < |ls| =>
      LessonView(i + 1, ls[i].title,
        match VimeoId(ls[i].url)
        case Some(v) => Player(v)
        case None => InvalidUrl(InvalidVideo)))
  }

  /** The page renders the prompt exactly when the course is paid for and not
      yet purchased, with the course's price on its button; otherwise the
      lessons, or the not-found text. */
  function Render(p: Page): (s: Screen)
    ensures s.NotFoundScreen? <==> p.NotFound?
    ensures s.NotFoundScreen? ==> s.text == NotFoundText
    ensures s.PurchasePrompt? <==> p.Viewing? && !p.hasPurchased && p.course.price > 0
    ensures s.PurchasePrompt? ==> s.price == p.course.price
    ensures s.Lessons? ==> |s.views| == |p.course.lessons|
    ensures s.Lessons? ==> forall i :: 0 <= i < |s.views| ==>
      s.views[i].number == i + 1 && s.views[i].title == p.course.lessons[i].title
    ensures s.Lessons? ==> forall i :: 0 <= i < |s.views| ==>
      (s.views[i].video.Player? <==> VimeoId(p.course.lessons[i].url).Some?)
    ensures s.Lessons? ==> forall i :: 0 <= i < |s.views| && s.views[i].video.Player? ==>
      s.views[i].video.id == VimeoId(p.course.lessons[i].url).value
    ensures s.Lessons? ==> forall i :: 0 <= i < |s.views| && s.views[i].video.InvalidUrl? ==>
      s.views[i].video.text == InvalidVideo
  {
    match p
    case NotFound => NotFoundScreen(NotFoundText)
    case Viewing(c, bought) =>
      if !bought && c.price > 0 then PurchasePrompt(c.price) else Lessons(ShowLessons(c.lessons))
  }

  /** A free course never shows the prompt. */
  lemma FreeCourseIsOpen(id: string)
    requires id in Catalogue && Catalogue[id].price == 0
    ensures Render(Open(id)).Lessons?
  {
  }

  /** After the fake purchase every course in the catalogue shows its lessons. */
  lemma PurchaseOpensCourse(id: string)
    requires id in Catalogue
    ensures Render(FakePurchase(Open(id))).Lessons?
  {
  }

  /** Only the two paid courses show the prompt on opening. */
  lemma PaidCourses(id: string)
    ensures Render(Open(id)).PurchasePrompt? <==> id == "3" || id == "4"
  {
  }

  /** A URL of the form `<prefix>vimeo.com/<digits>` yields the digits when
      the prefix holds no earlier match. */
  lemma VimeoIdOfCanonical(prefix: string, digits: string)
    requires AllDigits(digits)
    requires forall k :: 0 <= k < |prefix| ==> !MatchesAt(prefix + Marker + digits, k)
    ensures VimeoId(prefix + Marker + digits) == Some(digits)
  {
    var url := prefix + Marker + digits;
    MatchAfterPrefix(prefix, digits);
    DigitsAfterPrefix(prefix, digits);
    VimeoIdAt(url, |prefix|);
  }

  /** When the leftmost match is at `j` and only digits follow the marker,
      the id is everything after the marker. */
  lemma VimeoIdAt(url: string, j: nat)
    requires MatchesAt(url, j) && forall k :: 0 <= k < j ==> !MatchesAt(url, k)
    requires forall k :: j + |Marker| <= k < |url| ==> IsDigit(url[k])
    ensures VimeoId(url) == Some(url[j + |Marker|..])
  {
    var start := j + |Marker|;
    FindMatchFrom(url, 0, j);
    DigitRunToEnd(url, start);
    VimeoIdFrom(url, j);
    assert url[start..start + DigitRun(url, start)] == url[start..];
  }

  /** In general the id is the maximal digit run after the leftmost match:
      with the leftmost match at `j`, digits on the `n` positions after the
      marker and then the end of the URL or a non-digit (as in
      `https://vimeo.com/123?h=x`), the id is exactly those `n` digits. */
  lemma VimeoIdLeftmostRun(url: string, j: nat, n: nat)
    requires MatchesAt(url, j) && forall k :: 0 <= k < j ==> !MatchesAt(url, k)
    requires j + |Marker| + n <= |url|
    requires forall k :: j + |Marker| <= k < j + |Marker| + n ==> IsDigit(url[k])
    requires j + |Marker| + n == |url| || !IsDigit(url[j + |Marker| + n])
    ensures VimeoId(url) == Some(url[j + |Marker|..j + |Marker| + n])
  {
    var start := j + |Marker|;
    FindMatchFrom(url, 0, j);
    VimeoIdFrom(url, j);
  }

  /** Unfolds `VimeoId` once the leftmost match is known. */
  lemma VimeoIdFrom(url: string, j: nat)
    requires j + |Marker| <= |url| && FindMatch(url, 0) == Some(j)
    ensures VimeoId(url) == Some(url[j + |Marker|..j + |Marker| + DigitRun(url, j + |Marker|)])
  {
  }

  lemma MatchAfterPrefix(prefix: string, digits: string)
    requires AllDigits(digits)
    ensures MatchesAt(prefix + Marker + digits, |prefix|)
  {
    var url := prefix + Marker + digits;
    assert url[|prefix|..|prefix| + |Marker|] == Marker;
    assert url[|prefix| + |Marker|] == digits[0];
  }

  lemma DigitsAfterPrefix(prefix: string, digits: string)
    requires AllDigits(digits)
    ensures var url := prefix + Marker + digits;
      && url[|prefix| + |Marker|..] == digits
      && forall k :: |prefix| + |Marker| <= k < |url| ==> IsDigit(url[k])
  {
    var url := prefix + Marker + digits;
    assert url[|prefix| + |Marker|..] == digits;
  }

  lemma {:induction false} FindMatchFrom(url: string, i: nat, j: nat)
    requires i <= j <= |url| && MatchesAt(url, j)
    requires forall k :: i <= k < j ==> !MatchesAt(url, k)
    ensures FindMatch(url, i) == Some(j)
    decreases j - i
  {
    if i < j {
      FindMatchFrom(url, i + 1, j);
    }
  }

  lemma {:induction false} DigitRunToEnd(s: string, i: nat)
    requires i <= |s| && forall k :: i <= k < |s| ==> IsDigit(s[k])
    ensures DigitRun(s, i) == |s| - i
    decreases |s| - i
  {
    if i < |s| {
      DigitRunToEnd(s, i + 1);
    }
  }

  /** A prefix without the letter `v` cannot hide an earlier match. */
  lemma NoMatchWithoutV(prefix: string, rest: string)
    requires forall k :: 0 <= k < |prefix| ==> prefix[k] != 'v'
    ensures forall k :: 0 <= k < |prefix| ==> !MatchesAt(prefix + rest, k)
  {
    forall k | 0 <= k < |prefix|
      ensures !MatchesAt(prefix + rest, k)
    {
      var u := prefix + rest;
      assert u[k] == prefix[k];
      if k + |Marker| < |u| {
        assert u[k..k + |Marker|][0] == u[k];
      }
    }
  }

  /** A catalogue-style URL yields exactly its digits. */
  lemma CanonicalUrl(digits: string)
    requires AllDigits(digits)
    ensures VimeoId(VimeoUrl(digits)) == Some(digits)
  {
    NoMatchWithoutV(Scheme, Marker + digits);
    assert Scheme + (Marker + digits) == Scheme + Marker + digits;
    VimeoIdOfCanonical(Scheme, digits);
  }

  /** Every lesson of the catalogue renders a player: no lesson shows the
      invalid-URL text. */
  lemma CatalogueVideosValid(id: string, i: nat)
    requires id in Catalogue && i < |Catalogue[id].lessons|
    ensures VimeoId(Catalogue[id].lessons[i].url).Some?
  {
    var ls := Catalogue[id].lessons;
    if id == "1" {
      LessonsValid(ls, ["1100918662", "1100918673", "1100919910"]);
    } else if id == "2" {
      LessonsValid(ls, ["1100918630", "1100918653", "1100918692"]);
    } else if id == "3" {
      LessonsValid(ls, ["1100919889", "1100919901", "1100919919"]);
    } else {
      LessonsValid(ls, ["1100918681", "1100918619", "1100918642"]);
    }
  }

  /** Lessons whose URLs are `https://vimeo.com/` followed by the given
      digit strings all yield a video id. */
  lemma LessonsValid(ls: seq<Lesson>, numbers: seq<string>)
    requires |ls| == |numbers|
    requires forall j :: 0 <= j < |ls| ==> ls[j].url == VimeoUrl(numbers[j]) && AllDigits(numbers[j])
    ensures forall j :: 0 <= j < |ls| ==> VimeoId(ls[j].url).Some?
  {
    forall j | 0 <= j < |ls|
      ensures VimeoId(ls[j].url).Some?
    {
      CanonicalUrl(numbers[j]);
    }
  }

  /** Once purchased, every catalogue course embeds a player for each of its
      lessons: none shows the invalid-URL text. */
  lemma PurchasedCatalogueShowsPlayers(id: string)
    requires id in Catalogue
    ensures var s := Render(FakePurchase(Open(id)));
      s.Lessons? && forall i :: 0 <= i < |s.views| ==> s.views[i].video.Player?
  {
    forall i | 0 <= i < |Catalogue[id].lessons|
      ensures VimeoId(Catalogue[id].lessons[i].url).Some?
    {
      CatalogueVideosValid(id, i);
    }
  }
}
