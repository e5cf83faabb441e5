/** The site's hash routing: the location hash names the page to show, and the page state
    follows the hash from startup on. */
module Routing {
  import opened JsText

  /** What `renderPage` shows: one of the five named pages, or the home sections. */
  datatype Page = About | Competition | SubmitYouth | SubmitFuture | SubmitWorld | Home

  /** The key that selects each page; `home` is the fallback key for the home sections. */
  function KeyOf(p: Page): string {
    match p
    case About => "about"
    case Competition => "competition"
    case SubmitYouth => "submit-youth"
    case SubmitFuture => "submit-future"
    case SubmitWorld => "submit-world"
    case Home => "home"
  }

  /** `s.replace(c, '')` with a one-character string pattern: only the first occurrence of
      `c` goes, wherever it stands, and every other character keeps its order; without one
      the string is unchanged. */
  function RemoveFirst(s: string, c: char): (r: string)
    ensures c !in s ==> r == s
    ensures c in s ==> |r| == |s| - 1 && c !in r[..IndexOf(s, c)]
  {
    var i := IndexOf(s, c);
    if i == |s| then
      assert c !in s;
      s
    else
      assert s[i] == c;
      assert (s[..i] + s[i + 1..])[..i] == s[..i];
      s[..i] + s[i + 1..]
  }

  /** `replace` keeps every character but the first `c` in order: one before it stays at
      its index and one after it moves one place left. */
  lemma RemoveFirstKeepsTheRest(s: string, c: char, k: nat)
    requires c in s && k < |s| - 1
    ensures RemoveFirst(s, c)[k] == (if k < IndexOf(s, c) then s[k] else s[k + 1])
  {
  }

  /** `handleHashChange`'s page key: the hash without its first `#`, or `home` when nothing
      is left. A location hash is empty or starts with `#`; any later `#` is kept. */
  function PageKey(hash: string): (key: string)
    ensures key != []
    ensures '#' !in hash && hash != [] ==> key == hash
    ensures hash != [] && hash[0] == '#' ==> key == (if |hash| == 1 then "home" else hash[1..])
  {
    var stripped := RemoveFirst(hash, '#');
    if stripped == [] then "home" else stripped
  }

  /** `renderPage`: a switch on the key with the home sections as the default. */
  function RenderPage(key: string): (p: Page)
    ensures p != Home ==> KeyOf(p) == key
  {
    if key == "about" then About
    else if key == "competition" then Competition
    else if key == "submit-youth" then SubmitYouth
    else if key == "submit-future" then SubmitFuture
    else if key == "submit-world" then SubmitWorld
    else Home
  }

  /** Each page's key selects that page, and no two pages share a key. */
  lemma RenderPageOfKey(p: Page)
    ensures RenderPage(KeyOf(p)) == p
    ensures forall q :: KeyOf(q) == KeyOf(p) ==> q == p
  {
  }

  /** A named page is shown exactly for its own key; every other key, `home` and unknown
      strings alike, shows the home sections. */
  lemma RenderPageIff(key: string, p: Page)
    ensures p != Home ==> (RenderPage(key) == p <==> key == KeyOf(p))
    ensures RenderPage(key) == Home <==> forall q :: q != Home ==> key != KeyOf(q)
  {
    if RenderPage(key) != Home {
      var q := RenderPage(key);
      assert q != Home && key == KeyOf(q);
    }
  }

  /** Following a link `#name` selects the key `name`, whatever it holds, and the bare `#`
      selects home; a name without `#` selects the same key when given without the `#`. */
  lemma {:induction false} LinkSelectsItsPage(name: string)
    ensures PageKey("#" + name) == (if name == [] then "home" else name)
    ensures '#' !in name ==> PageKey(name) == (if name == [] then "home" else name)
  {
    assert ("#" + name)[0] == '#' && ("#" + name)[1..] == name;
  }

  /** Round trip: the hash of each page's link shows that page. */
  lemma HashOfPageShowsIt(p: Page)
    ensures RenderPage(PageKey("#" + KeyOf(p))) == p
  {
    assert '#' !in KeyOf(p) by {
      assert forall k :: 0 <= k < |KeyOf(p)| ==> KeyOf(p)[k] != '#';
    }
    LinkSelectsItsPage(KeyOf(p));
    RenderPageOfKey(p);
  }

  /** Only the first `#` is stripped: a doubled `#` keeps one, and the key then names no
      page. */
  lemma {:induction false} DoubleHashShowsHome(name: string)
    ensures PageKey("##" + name) == "#" + name
    ensures RenderPage(PageKey("##" + name)) == Home
  {
    var h := "##" + name;
    assert h[0] == '#' && h[1..] == "#" + name;
    var key := "#" + name;
    assert key[0] == '#';
    forall q | q != Home ensures key != KeyOf(q) {
      assert KeyOf(q)[0] != '#';
    }
    RenderPageIff(key, Home);
  }

  /** The `App` component's page state. */
  class App {
    var currentPage: string

    /** The state starts at `home`, and the mount effect at once applies the current hash. */
    constructor (initialHash: string)
      ensures currentPage == PageKey(initialHash)
    {
      currentPage := "home";
      new;
      HandleHashChange(initialHash);
    }

    /** The `hashchange` listener. */
    method HandleHashChange(hash: string)
      modifies this
      ensures currentPage == PageKey(hash)
    {
      currentPage := PageKey(hash);
    }

    /** What the component shows for its state. */
    function Displayed(): Page
      reads this
    {
      RenderPage(currentPage)
    }
  }
}
