/**
 * ServiceProvider: the per-request helper that keeps the flash messages in the
 * session, the view layout and the view being rendered, and the request and
 * response it is bound to.
 */
module ServiceProviders {
  import opened Wrappers
  import FlashStore

  /** The HTTP request a provider is bound to; its contents are not modelled. */
  class Request {}

  /** The HTTP response a provider is bound to; its contents are not modelled. */
  class Response {}

  /** The PHP session, shared by every provider of the process. Only its
      '__flashes' entry is modelled. */
  class Session {
    var flashes: FlashStore.Store

    constructor (flashes: FlashStore.Store)
      ensures this.flashes == flashes
    {
      this.flashes := flashes;
    }
  }

  /** One `require` of a view or layout file, with the provider's view and layout
      as that file sees them while it runs. */
  datatype Inclusion = Inclusion(file: string, view: Option<string>, layout: Option<string>)

  /** What layout() answers: the provider itself after a set (for chaining), or
      the current layout on a get. */
  datatype LayoutAnswer = Provider(provider: ServiceProvider) | Current(layout: Option<string>)

  class ServiceProvider {
    var request: Request?
    var response: Response?
    var layout: Option<string>
    var view: Option<string>
    /** The session whose '__flashes' entry flash() and flashes() use. */
    const session: Session
    /** The markdown renderer applied to every flashed message with its optional
        parameters; an arbitrary function here. */
    const markdown: (string, Option<seq<string>>) -> string
    /** The view and layout files required so far, in order: what the model keeps
        of the output that rendering produces. */
    var required: seq<Inclusion>

    /** A new provider bound to `request` and `response`, with no layout and no
        view. */
    constructor (request: Request?, response: Response?, session: Session,
                 markdown: (string, Option<seq<string>>) -> string)
      ensures this.request == request && this.response == response
      ensures layout == None && view == None && required == []
      ensures this.session == session && this.markdown == markdown
    {
      this.request := request;
      this.response := response;
      this.session := session;
      this.markdown := markdown;
      layout, view := None, None;
      required := [];
    }

    /** bind(): a null argument keeps the current reference, a non-null one
        replaces it; returns the provider for chaining. */
    method Bind(request: Request?, response: Response?) returns (self: ServiceProvider)
      modifies this`request, this`response
      ensures self == this
      ensures this.request == if request != null then request else old(this.request)
      ensures this.response == if response != null then response else old(this.response)
    {
      this.request := if request != null then request else this.request;
      this.response := if response != null then response else this.response;
      self := this;
    }

    /** flash(): render `msg` with markdown and append it to the list of its type.
        When the type argument is an array it becomes the markdown parameters
        and the type is "info". */
    method Flash(msg: string, kind: FlashStore.TypeArg, params: Option<seq<string>>)
      modifies session
      ensures kind.Named? ==>
        session.flashes == Some(FlashStore.Flash(old(session.flashes), kind.name, markdown(msg, params)))
      ensures kind.Params? ==>
        session.flashes == Some(FlashStore.Flash(old(session.flashes), FlashStore.DefaultType, markdown(msg, Some(kind.args))))
    {
      var name, args := "", params;
      match kind {
        case Params(a) =>
          name, args := FlashStore.DefaultType, Some(a);
        case Named(n) =>
          name := n;
      }
      var entry := markdown(msg, args);
      var table: FlashStore.Table;
      if session.flashes.None? {
        table := map[name := []];
      } else if name !in session.flashes.value {
        table := session.flashes.value[name := []];
      } else {
        table := session.flashes.value;
      }
      session.flashes := Some(table[name := table[name] + [entry]]);
    }

    /** flashes(): return and clear all flashes (no type) or the flashes of one
        type. */
    method Flashes(kind: Option<string>) returns (r: FlashStore.Flashed)
      modifies session
      ensures (r, session.flashes) == FlashStore.Take(old(session.flashes), kind)
    {
      if session.flashes.None? {
        r := if kind.None? then FlashStore.AllTypes(map[]) else FlashStore.OneType([]);
        return;
      }
      if kind.None? {
        r := FlashStore.AllTypes(session.flashes.value);
        session.flashes := None;
      } else {
        r := FlashStore.OneType([]);
        if kind.value in session.flashes.value {
          r := FlashStore.OneType(session.flashes.value[kind.value]);
          session.flashes := Some(session.flashes.value - {kind.value});
        }
      }
    }

    /** layout(): with a non-null argument set the layout and return the provider;
        with null return the current layout and change nothing. */
    method Layout(newLayout: Option<string>) returns (r: LayoutAnswer)
      modifies this`layout
      ensures newLayout.Some? ==> layout == newLayout && r == Provider(this)
      ensures newLayout.None? ==> layout == old(layout) && r == Current(layout)
    {
      if newLayout.Some? {
        layout := newLayout;
        return Provider(this);
      }
      return Current(layout);
    }

    /** The `require` of one file: the file runs with the current view and layout
        and leaves them as they were. */
    method Require(file: string)
      modifies this`required
      ensures required == old(required) + [Inclusion(file, view, layout)]
    {
      required := required + [Inclusion(file, view, layout)];
    }

    /** yieldView(): require the current view. PHP fails fatally on a require of
        null, so the view must be set. */
    method YieldView()
      requires view.Some?
      modifies this`required
      ensures required == old(required) + [Inclusion(view.value, view, layout)]
    {
      Require(view.value);
    }

    /** render(): make `v` the current view, require it directly when no layout is
        set or else require the layout (which yields the view), then restore the
        view the provider had before, so that a render nested in a view leaves its
        parent's view in place. The layout is not touched. Afterwards PHP reads
        the response's `chunked` flag, which is fatal when no response is bound,
        so a response must be bound. */
    method Render(v: string)
      requires response != null
      modifies this`view, this`required
      ensures view == old(view)
      ensures required == old(required) +
        [Inclusion(if layout.None? then v else layout.value, Some(v), layout)]
    {
      var originalView := view;
      view := Some(v);
      if layout.None? {
        YieldView();
      } else {
        Require(layout.value);
      }
      view := originalView;
    }

    /** partial(): render `v` with the layout switched off, then put the layout
        back: the view file itself is required, seeing no layout. */
    method Partial(v: string)
      requires response != null
      modifies this`layout, this`view, this`required
      ensures layout == old(layout) && view == old(view)
      ensures required == old(required) + [Inclusion(v, Some(v), None)]
    {
      var savedLayout := layout;
      layout := None;
      Render(v);
      layout := savedLayout;
    }
  }

  /** Example client, not part of the source: two flashes of one type followed
      by reading that type give both messages in the order they were flashed;
      a second read finds nothing. */
  method FlashScenario(session: Session, markdown: (string, Option<seq<string>>) -> string)
    modifies session
  {
    session.flashes := None;
    var sp := new ServiceProvider(null, null, session, markdown);
    sp.Flash("saved", FlashStore.Named("success"), None);
    sp.Flash("again", FlashStore.Params(["x"]), None);
    sp.Flash("also saved", FlashStore.Named("success"), None);
    var got := sp.Flashes(Some("success"));
    assert got == FlashStore.OneType([markdown("saved", None), markdown("also saved", None)]);
    var rest := sp.Flashes(None);
    assert rest.table.Keys == {"info"};
    var again := sp.Flashes(None);
    assert again == FlashStore.AllTypes(map[]);
  }

  /** Example client, not part of the source: a partial inside a layout-wrapped
      page. The partial sees no layout, the page is wrapped by the layout, and
      the view state is back afterwards. */
  method RenderScenario(session: Session, markdown: (string, Option<seq<string>>) -> string)
  {
    var response := new Response;
    var sp := new ServiceProvider(null, response, session, markdown);
    var l := sp.Layout(Some("layout.php"));
    sp.Partial("inner.php");
    sp.Render("page.php");
    assert sp.required == [Inclusion("inner.php", Some("inner.php"), None),
                           Inclusion("layout.php", Some("page.php"), Some("layout.php"))];
    assert sp.view == None && sp.layout == Some("layout.php");
  }
}
