/**
 * The browser's document as the Selenium client sees it: elements whose
 * attributes and text are answers that may fail, and whose descendants are
 * listed per CSS selector in document order. No selector is evaluated here;
 * the `matches` map is what the browser would return for each selector.
 */
module Dom {
  import opened Base

  /** A `selenium.WebElement`, described by the answers the browser gives about it. */
  datatype Element = Element(
    cls: Result<string>,                // GetAttribute("class")
    innerText: Result<string>,          // GetAttribute("innerText")
    text: Result<string>,               // Text()
    matches: map<string, seq<Element>>) // FindElements(ByCSSSelector, s) for each selector s

  /** The error of a lookup that matches nothing. */
  const NoSuchElement := Error("no such element")

  /** `FindElements`: every descendant matching the selector, in document order; a failed lookup is empty. */
  function FindElements(e: Element, selector: string): (found: seq<Element>)
    ensures selector !in e.matches ==> found == []
  {
    if selector in e.matches then e.matches[selector] else []
  }

  /** `FindElement`: the first match, or an error when there is none. */
  function FindElement(e: Element, selector: string): (r: Result<Element>)
    ensures r.Ok? <==> |FindElements(e, selector)| > 0
    ensures r.Ok? ==> r.value == FindElements(e, selector)[0]
  {
    var found := FindElements(e, selector);
    if |found| > 0 then Ok(found[0]) else Err(NoSuchElement)
  }

  /** The string a failed attribute or text read leaves behind: the Selenium client returns `""` with its error. */
  function OrEmpty(r: Result<string>): (s: string)
    ensures r.Err? ==> s == ""
  {
    match r
    case Ok(v) => v
    case Err(_) => ""
  }

  /** The page a session is on: its document, and whether the experience list becomes visible in time. */
  datatype Page = Page(document: Element, experienceVisible: bool)
}
