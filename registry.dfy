/** The template registry NewRenderer builds and the outcome of Render,
    as functions on values. Template sources are kept as strings: parsing
    and execution are not looked into. */
module Registry {
  import opened Wrappers
  import opened Types
  import opened Http

  /** Paths inside the package's embedded template file system. */
  const LayoutPath := "templates/layout.html"
  const LoginPath := "templates/login.html"
  /** Key of the shared login page, and the entry template every page executes. */
  const LoginPage := "login.html"
  const LayoutEntry := "layout.html"

  /** The startup failures that abort the process (log.Fatalf). */
  datatype Fatal = MissingLayout | MissingLogin | MissingPage(dir: string, page: string)

  /** The source parsed for a page: the layout, a newline, the page. */
  function Combine(layout: string, page: string): (source: string) {
    layout + "\n" + page
  }

  /** Where a project page is read from. */
  function PagePath(dir: string, page: string): (path: string) {
    dir + "/" + page
  }

  /** The registration loop: reads each page in order and stores its
      combined source under the page name; the first missing file aborts. */
  function AddPages(m: map<string, string>, layout: string, projectFS: map<string, string>,
                    dir: string, pages: seq<string>): (res: Result<map<string, string>, Fatal>)
    decreases |pages|
  {
    if pages == [] then Success(m)
    else if PagePath(dir, pages[0]) !in projectFS then Failure(MissingPage(dir, pages[0]))
    else AddPages(m[pages[0] := Combine(layout, projectFS[PagePath(dir, pages[0])])],
                  layout, projectFS, dir, pages[1..])
  }

  /** The whole registry: layout read first, then the shared login page,
      which is registered before every project page. */
  function Templates(shared: map<string, string>, projectFS: map<string, string>,
                     dir: string, pages: seq<string>): (res: Result<map<string, string>, Fatal>)
  {
    if LayoutPath !in shared then Failure(MissingLayout)
    else if LoginPath !in shared then Failure(MissingLogin)
    else AddPages(map[LoginPage := Combine(shared[LayoutPath], shared[LoginPath])],
                  shared[LayoutPath], projectFS, dir, pages)
  }

  /** Every page file exists exactly when the loop finishes. */
  lemma {:induction false} AddPagesSucceedsIff(m: map<string, string>, layout: string,
                                              projectFS: map<string, string>, dir: string, pages: seq<string>)
    ensures AddPages(m, layout, projectFS, dir, pages).Success?
        <==> forall p :: p in pages ==> PagePath(dir, p) in projectFS
    decreases |pages|
  {
    if pages != [] {
      var p := pages[0];
      if PagePath(dir, p) in projectFS {
        AddPagesSucceedsIff(m[p := Combine(layout, projectFS[PagePath(dir, p)])], layout, projectFS, dir, pages[1..]);
        assert forall q :: q in pages <==> q == p || q in pages[1..];
      }
    }
  }

  /** A failure names the first page in list order whose file is missing. */
  lemma {:induction false} AddPagesFailsAtFirstMissing(m: map<string, string>, layout: string,
                                                      projectFS: map<string, string>, dir: string, pages: seq<string>)
    requires AddPages(m, layout, projectFS, dir, pages).Failure?
    ensures exists j ::
      (FirstMissing(projectFS, dir, pages, j)
       && AddPages(m, layout, projectFS, dir, pages).error == MissingPage(dir, pages[j]))
    decreases |pages|
  {
    var p := pages[0];
    if PagePath(dir, p) in projectFS {
      var rest := pages[1..];
      AddPagesFailsAtFirstMissing(m[p := Combine(layout, projectFS[PagePath(dir, p)])], layout, projectFS, dir, rest);
      var j :| FirstMissing(projectFS, dir, rest, j)
        && AddPages(m, layout, projectFS, dir, pages).error == MissingPage(dir, rest[j]);
      assert pages[j + 1] == rest[j];
      assert forall k :: 1 <= k < j + 1 ==> pages[k] == rest[k - 1];
      assert FirstMissing(projectFS, dir, pages, j + 1);
    } else {
      assert FirstMissing(projectFS, dir, pages, 0);
    }
  }

  /** `pages[j]` is the first listed page whose file is absent. */
  ghost predicate FirstMissing(projectFS: map<string, string>, dir: string, pages: seq<string>, j: int) {
    && 0 <= j < |pages|
    && PagePath(dir, pages[j]) !in projectFS
    && forall k :: 0 <= k < j ==> PagePath(dir, pages[k]) in projectFS
  }

  /** On success, the keys are the old keys plus every page name, each page
      holds its own combined source, and every other key is untouched. */
  lemma {:induction false} AddPagesContents(m: map<string, string>, layout: string,
                                           projectFS: map<string, string>, dir: string, pages: seq<string>)
    requires AddPages(m, layout, projectFS, dir, pages).Success?
    ensures AddPages(m, layout, projectFS, dir, pages).value.Keys == m.Keys + set p | p in pages
    ensures var t := AddPages(m, layout, projectFS, dir, pages).value;
      forall p :: p in pages ==>
        (p in t && PagePath(dir, p) in projectFS && t[p] == Combine(layout, projectFS[PagePath(dir, p)]))
    ensures var t := AddPages(m, layout, projectFS, dir, pages).value;
      forall k :: k in m && k !in pages ==> (k in t && t[k] == m[k])
    decreases |pages|
  {
    if pages != [] {
      var p := pages[0];
      var m' := m[p := Combine(layout, projectFS[PagePath(dir, p)])];
      AddPagesContents(m', layout, projectFS, dir, pages[1..]);
      assert forall q :: q in pages <==> q == p || q in pages[1..];
      assert (set q | q in pages) == {p} + set q | q in pages[1..];
    }
  }

  /** Insertion order: registering `ps` and then `qs` is registering
      `ps + qs`, so a later write of a key replaces an earlier one. */
  lemma {:induction false} AddPagesAppend(m: map<string, string>, layout: string,
                                         projectFS: map<string, string>, dir: string, ps: seq<string>, qs: seq<string>)
    ensures AddPages(m, layout, projectFS, dir, ps + qs)
         == match AddPages(m, layout, projectFS, dir, ps)
            case Success(t) => AddPages(t, layout, projectFS, dir, qs)
            case Failure(e) => Failure(e)
    decreases |ps|
  {
    if ps == [] {
      assert ps + qs == qs;
    } else {
      assert (ps + qs)[0] == ps[0];
      assert (ps + qs)[1..] == ps[1..] + qs;
      if PagePath(dir, ps[0]) in projectFS {
        AddPagesAppend(m[ps[0] := Combine(layout, projectFS[PagePath(dir, ps[0])])], layout, projectFS, dir, ps[1..], qs);
      }
    }
  }

  /** The registry exists exactly when the layout, the shared login page
      and every listed page file can be read. */
  lemma TemplatesSucceedsIff(shared: map<string, string>, projectFS: map<string, string>,
                             dir: string, pages: seq<string>)
    ensures Templates(shared, projectFS, dir, pages).Success?
        <==> LayoutPath in shared && LoginPath in shared
             && forall p :: p in pages ==> PagePath(dir, p) in projectFS
  {
    if LayoutPath in shared && LoginPath in shared {
      AddPagesSucceedsIff(map[LoginPage := Combine(shared[LayoutPath], shared[LoginPath])],
                          shared[LayoutPath], projectFS, dir, pages);
    }
  }

  /** Which failure aborts startup: the layout is checked first, then the
      shared login page, then the pages in list order. */
  lemma TemplatesFailure(shared: map<string, string>, projectFS: map<string, string>,
                         dir: string, pages: seq<string>)
    requires Templates(shared, projectFS, dir, pages).Failure?
    ensures var e := Templates(shared, projectFS, dir, pages).error;
      && (e == MissingLayout <==> LayoutPath !in shared)
      && (e == MissingLogin <==> LayoutPath in shared && LoginPath !in shared)
      && (e.MissingPage? ==>
            (LayoutPath in shared && LoginPath in shared
             && exists j :: FirstMissing(projectFS, dir, pages, j) && e == MissingPage(dir, pages[j])))
  {
    if LayoutPath in shared && LoginPath in shared {
      AddPagesFailsAtFirstMissing(map[LoginPage := Combine(shared[LayoutPath], shared[LoginPath])],
                                  shared[LayoutPath], projectFS, dir, pages);
    }
  }

  /** On success the keys are exactly the login page and the listed pages;
      each page holds layout + "\n" + its file, and the shared login source
      survives unless a listed page is itself named login.html. */
  lemma TemplatesContents(shared: map<string, string>, projectFS: map<string, string>,
                          dir: string, pages: seq<string>)
    requires Templates(shared, projectFS, dir, pages).Success?
    ensures LayoutPath in shared && LoginPath in shared
    ensures Templates(shared, projectFS, dir, pages).value.Keys == {LoginPage} + set p | p in pages
    ensures var t := Templates(shared, projectFS, dir, pages).value;
      forall p :: p in pages ==>
        (p in t && PagePath(dir, p) in projectFS
         && t[p] == Combine(shared[LayoutPath], projectFS[PagePath(dir, p)]))
    ensures var t := Templates(shared, projectFS, dir, pages).value;
      LoginPage !in pages ==> (LoginPage in t && t[LoginPage] == Combine(shared[LayoutPath], shared[LoginPath]))
  {
    AddPagesContents(map[LoginPage := Combine(shared[LayoutPath], shared[LoginPath])],
                     shared[LayoutPath], projectFS, dir, pages);
  }

  /** The envelope every page is executed with. */
  function Envelope(brand: Brand, nav: seq<NavLink>, data: Payload, loggedIn: bool, errMsg: string): (pd: PageData) {
    PageData(brand.prefix + brand.suffix, errMsg, loggedIn, brand, nav, data)
  }

  /** What Render does: an exact-key lookup, then either a 500 naming the
      missing template or one execution of the stored source. */
  function RenderOutcome(templates: map<string, string>, brand: Brand, nav: seq<NavLink>,
                         name: string, data: Payload, loggedIn: bool, errMsg: string): (acts: seq<Action>)
  {
    if name !in templates then [HttpError("template not found: " + name, 500)]
    else [Execute(templates[name], LayoutEntry, Envelope(brand, nav, data, loggedIn, errMsg))]
  }

  /** Rendering from a freshly built registry: a listed page executes its
      own combined source, login.html always resolves, and any other name
      is a 500 that executes nothing. */
  lemma RenderAfterBuild(shared: map<string, string>, projectFS: map<string, string>, dir: string,
                         pages: seq<string>, brand: Brand, nav: seq<NavLink>,
                         name: string, data: Payload, loggedIn: bool, errMsg: string)
    requires Templates(shared, projectFS, dir, pages).Success?
    ensures LayoutPath in shared && LoginPath in shared
    ensures var out := RenderOutcome(Templates(shared, projectFS, dir, pages).value, brand, nav, name, data, loggedIn, errMsg);
      && |out| == 1
      && (name in pages ==>
            (PagePath(dir, name) in projectFS
             && out[0] == Execute(Combine(shared[LayoutPath], projectFS[PagePath(dir, name)]), LayoutEntry,
                                  PageData(brand.prefix + brand.suffix, errMsg, loggedIn, brand, nav, data))))
      && (name == LoginPage && name !in pages ==>
            out[0] == Execute(Combine(shared[LayoutPath], shared[LoginPath]), LayoutEntry,
                              PageData(brand.prefix + brand.suffix, errMsg, loggedIn, brand, nav, data)))
      && (name != LoginPage && name !in pages ==> out[0] == HttpError("template not found: " + name, 500))
  {
    TemplatesContents(shared, projectFS, dir, pages);
  }

  /** A missing template reaches a client that has seen no status yet as a
      500 whose body names it; no page body is written. */
  lemma RenderMissSent(log: seq<Action>, templates: map<string, string>, brand: Brand, nav: seq<NavLink>,
                       name: string, data: Payload, loggedIn: bool, errMsg: string)
    requires name !in templates
    requires Sent(log).status.None? && !Sent(log).aborted
    ensures var s := Sent(log + RenderOutcome(templates, brand, nav, name, data, loggedIn, errMsg));
      && s.status == Some(500)
      && s.body == Sent(log).body + [TextPart("template not found: " + name + "\n")]
  {
    ReplayAppend(Fresh, log, RenderOutcome(templates, brand, nav, name, data, loggedIn, errMsg));
  }
}
