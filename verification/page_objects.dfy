/**
 * The page-object layer: a Page owns a browser session (its driver) and, when
 * it is built, hands that driver to every Element among its attributes. Also
 * the condition `wait_text_change` polls, and the context-manager exit that
 * always quits the browser.
 */
module PageObjects {
  import opened Optional

  /**
   * A Python exception class: its name, and whether its constructor can be
   * called with exactly one positional argument.
   */
  datatype ExcClass = ExcClass(name: string, acceptsOneArg: bool)

  /**
   * A Python exception: its class, the single argument it was built with,
   * and the exception being handled when it was raised (`__context__`).
   */
  datatype Exc = Exc(cls: ExcClass, arg: ExcArg, context: Option<Exc>)
  datatype ExcArg = Message(text: string) | Instance(cause: Exc)

  const AttributeErrorClass: ExcClass := ExcClass("AttributeError", true)
  const TypeErrorClass: ExcClass := ExcClass("TypeError", true)

  /** What `None.quit()` raises outside any handler. */
  const NoDriverError: Exc := Exc(AttributeErrorClass, Message("'NoneType' object has no attribute 'quit'"), None)

  /** What calling an exception class with the wrong number of arguments raises. */
  const ArgumentCountError: ExcArg := Message("exception class called with the wrong number of arguments")

  /**
   * The browser session. `caps` is the capability dictionary the session was
   * created with (the download folder is stored under "options", possibly as
   * None); `quit` records that the browser was shut down.
   */
  class Driver {
    const caps: map<string, Option<string>>
    var quit: bool

    constructor (caps: map<string, Option<string>>)
      ensures this.caps == caps && !quit
    {
      this.caps := caps;
      quit := false;
    }

    /** Shuts the browser down. */
    method Quit()
      modifies this
      ensures quit
    {
      quit := true;
    }
  }

  /** A control on a page; it reaches the browser through `driver`, None until a Page attaches one. */
  class Element {
    var driver: Driver?

    constructor (driver: Driver?)
      ensures this.driver == driver
    {
      this.driver := driver;
    }
  }

  /** One attribute of a page, as listed by reflection: an Element or some other value. */
  datatype Attribute = ElementAttr(element: Element) | OtherAttr

  /** The Elements among a list of attributes. */
  function ElementsOf(attributes: seq<Attribute>): set<Element>
  {
    set a | a in attributes && a.ElementAttr? :: a.element
  }

  /**
   * The value stored as a page's url. The constructor's default for `url` is
   * the union type `str | None` itself, not None.
   */
  datatype UrlValue = Url(address: string) | NoneUrl | UnionTypeDefault

  const DefaultUrl: UrlValue := UnionTypeDefault

  class Page {
    var driver: Driver?
    var url: UrlValue
    /** The page's attributes in the order reflection lists them. */
    const attributes: seq<Attribute>

    /** Every Element attribute holds this page's driver. */
    predicate Propagated()
      reads this, ElementsOf(attributes)
    {
      forall i :: 0 <= i < |attributes| && attributes[i].ElementAttr? ==>
        attributes[i].element.driver == driver
    }

    /** Stores the driver and url, then propagates the driver to the Element attributes. */
    constructor (driver: Driver?, url: UrlValue, attributes: seq<Attribute>)
      modifies ElementsOf(attributes)
      ensures this.driver == driver && this.url == url && this.attributes == attributes
      ensures Propagated()
    {
      this.driver := driver;
      this.url := url;
      this.attributes := attributes;
      new;
      Reflection();
    }

    /**
     * Assigns the page's driver to every attribute that is an Element, and to
     * nothing else. When every Element already held that driver, nothing changes.
     */
    method Reflection()
      modifies ElementsOf(attributes)
      ensures Propagated()
      ensures old(Propagated()) ==> unchanged(ElementsOf(attributes))
    {
      ghost var before := Propagated();
      for i := 0 to |attributes|
        invariant forall j :: 0 <= j < i && attributes[j].ElementAttr? ==>
          attributes[j].element.driver == driver
        invariant before ==> unchanged(ElementsOf(attributes))
      {
        if attributes[i].ElementAttr? {
          attributes[i].element.driver := driver;
        }
      }
    }

    /** Quits the browser; with no driver this is an attribute error. */
    method Close() returns (raised: Option<Exc>)
      modifies driver
      ensures driver != null ==> driver.quit && raised == None
      ensures driver == null ==> raised == Some(NoDriverError)
    {
      if driver == null {
        return Some(NoDriverError);
      }
      driver.Quit();
      raised := None;
    }

    /**
     * Leaves the `with` block. `pending` is the exception the block raised, if
     * any; whatever `__exit__` raises is raised while `pending` is handled, so
     * `pending` is its context. The browser is closed first; then, if the
     * block raised, its exception class is called with the pending exception
     * as the one argument (the parameter named `type` shadows the builtin), and
     * the result is raised: a new exception of the same class, or the
     * TypeError of a class that does not take one argument.
     */
    method Exit(pending: Option<Exc>) returns (raised: Option<Exc>)
      modifies driver
      ensures driver != null ==> driver.quit
      ensures driver == null ==> raised == Some(NoDriverError.(context := pending))
      ensures driver != null && pending == None ==> raised == None
      ensures driver != null && pending.Some? && pending.value.cls.acceptsOneArg ==>
        raised == Some(Exc(pending.value.cls, Instance(pending.value), pending))
      ensures driver != null && pending.Some? && !pending.value.cls.acceptsOneArg ==>
        raised == Some(Exc(TypeErrorClass, ArgumentCountError, pending))
    {
      raised := Close();
      if raised.Some? {
        return Some(raised.value.(context := pending));
      }
      if pending.Some? {
        var cls := pending.value.cls;
        if cls.acceptsOneArg {
          raised := Some(Exc(cls, Instance(pending.value), pending));
        } else {
          raised := Some(Exc(TypeErrorClass, ArgumentCountError, pending));
        }
      }
    }
  }

  /**
   * A page whose Element is shared with a second page (an Element declared
   * on the page class is one object for all instances): building the second
   * page takes the Element over, so the first page's guarantee no longer holds.
   */
  method SharedElementFollowsLatestPage(first: Driver, second: Driver) returns (p: Page, q: Page, e: Element)
    requires first != second
    ensures p.attributes == [ElementAttr(e)] && q.attributes == [ElementAttr(e)]
    ensures e.driver == second && q.Propagated() && !p.Propagated()
  {
    e := new Element(null);
    p := new Page(first, DefaultUrl, [ElementAttr(e)]);
    assert ElementsOf([ElementAttr(e)]) == {e};
    q := new Page(second, DefaultUrl, [ElementAttr(e)]);
    assert q.attributes[0].element == e;
  }

  /**
   * A `with` block over a fresh page with a real url raises `pending`: the browser is quit,
   * and what escapes is a new exception of the same class whose one
   * argument is the pending exception, raised while that one is handled.
   */
  method FailingWithBlockReRaises(caps: map<string, Option<string>>, pending: Exc)
    returns (driver: Driver, raised: Option<Exc>)
    requires pending.cls.acceptsOneArg
    ensures driver.quit
    ensures raised.Some? && raised.value.cls == pending.cls
    ensures raised.value.arg == Instance(pending) && raised.value.context == Some(pending)
  {
    driver := new Driver(caps);
    var page := new Page(driver, Url("https://example.test"), []);
    raised := page.Exit(Some(pending));
  }

  /** Looking up the element: its text, or the lookup raised. */
  datatype Lookup = Found(text: string) | LookupRaised

  /** The Python value the condition returns: `False` or a string. */
  datatype Condition = FalseValue | TextValue(text: string)

  predicate Truthy(c: Condition)
  {
    c.TextValue? && c.text != ""
  }

  /**
   * The condition `wait_text_change` waits on: the element's text when it
   * differs from `oldText` (an empty text is falsy), `False` when it does not
   * or when the lookup raises.
   */
  function TextChanged(lookup: Lookup, oldText: string): (r: Condition)
    ensures Truthy(r) <==> lookup.Found? && lookup.text != oldText && lookup.text != ""
    ensures r.TextValue? ==> lookup.Found? && r.text == lookup.text
  {
    match lookup
    case LookupRaised => FalseValue
    case Found(text) => if text != oldText then TextValue(text) else FalseValue
  }
}
