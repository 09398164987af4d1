/**
 * The older, map-based LinkedIn extractor of internal/linkedin/cli.go: the
 * profile is read into a dictionary seeded with the name, title and location,
 * then every experience item writes its company as a key and its job title as
 * the value, so that a later item overwrites an earlier one with the same
 * company, and a company called `name`, `title` or `location` overwrites the
 * scalar entry.
 */
module LinkedInCli {
  import opened Dom
  // `getFieldData` and the page-level selectors of cli.go are those of command.go.
  import LinkedInCommand

  /** Where an item names its company. */
  const SubjectSelector := ".profile-section-card__subtitle > a"
  /** Where an item names the job title. */
  const JobSelector := ".profile-section-card__title"

  /**
   * The extractor ignores the lookup errors of an item's company and title
   * elements and reads the text of whatever it got, which fails for a missing
   * element; so it can only be run over items that have both.
   */
  predicate HasParts(elm: Element)
  {
    FindElement(elm, SubjectSelector).Ok? && FindElement(elm, JobSelector).Ok?
  }

  /** The company an item names: the key it writes. */
  function Company(elm: Element): string
    requires HasParts(elm)
  {
    OrEmpty(FindElement(elm, SubjectSelector).value.text)
  }

  /** The job title an item names: the value it writes. */
  function Job(elm: Element): string
    requires HasParts(elm)
  {
    OrEmpty(FindElement(elm, JobSelector).value.text)
  }

  /** Every experience item of the page has both a company and a title element. */
  predicate WellFormed(doc: Element)
  {
    var elms := FindElements(doc, LinkedInCommand.ExperienceSelector);
    forall k :: 0 <= k < |elms| ==> HasParts(elms[k])
  }

  /** The dictionary before the experience items are read: exactly the three scalar entries. */
  function Seed(doc: Element): (data: map<string, string>)
    ensures data.Keys == {"name", "title", "location"}
    ensures data["name"] == LinkedInCommand.FieldData(doc, LinkedInCommand.NameSelector)
    ensures data["title"] == LinkedInCommand.FieldData(doc, LinkedInCommand.HeadlineSelector)
    ensures data["location"] == LinkedInCommand.FieldData(doc, LinkedInCommand.LocationSelector)
  {
    map["name" := LinkedInCommand.FieldData(doc, LinkedInCommand.NameSelector)]
      ["title" := LinkedInCommand.FieldData(doc, LinkedInCommand.HeadlineSelector)]
      ["location" := LinkedInCommand.FieldData(doc, LinkedInCommand.LocationSelector)]
  }

  /** `data` after the items have written `company → job` one after the other. */
  function Written(data: map<string, string>, elms: seq<Element>): (written: map<string, string>)
    requires forall k :: 0 <= k < |elms| ==> HasParts(elms[k])
    ensures data.Keys <= written.Keys
    ensures elms != [] ==> var last := elms[|elms| - 1]; Company(last) in written && written[Company(last)] == Job(last)
  {
    if elms == [] then data
    else
      var last := elms[|elms| - 1];
      Written(data, elms[..|elms| - 1])[Company(last) := Job(last)]
  }

  /** The companies the items name. */
  function Companies(elms: seq<Element>): set<string>
    requires forall k :: 0 <= k < |elms| ==> HasParts(elms[k])
  {
    set k | 0 <= k < |elms| :: Company(elms[k])
  }

  /** The dictionary `extractUserProfile` returns. */
  function ProfileMap(doc: Element): (profile: map<string, string>)
    requires WellFormed(doc)
    ensures {"name", "title", "location"} <= profile.Keys
  {
    Written(Seed(doc), FindElements(doc, LinkedInCommand.ExperienceSelector))
  }

  /** `extractUserProfile`: seed the scalar entries, then let each experience item write its company and title. */
  method ExtractUserProfile(doc: Element) returns (data: map<string, string>)
    requires WellFormed(doc)
    ensures data == ProfileMap(doc)
  {
    data := map[];
    data := data["name" := LinkedInCommand.FieldData(doc, LinkedInCommand.NameSelector)];
    data := data["title" := LinkedInCommand.FieldData(doc, LinkedInCommand.HeadlineSelector)];
    data := data["location" := LinkedInCommand.FieldData(doc, LinkedInCommand.LocationSelector)];

    var elms := FindElements(doc, LinkedInCommand.ExperienceSelector);
    var i := 0;
    while i < |elms|
      invariant 0 <= i <= |elms|
      invariant data == Written(Seed(doc), elms[..i])
    {
      var elm := elms[i];
      assert elms[..i + 1][..i] == elms[..i];
      var subjectElm := FindElement(elm, SubjectSelector).value;
      var subject := OrEmpty(subjectElm.text);
      var jobElm := FindElement(elm, JobSelector).value;
      var job := OrEmpty(jobElm.text);
      data := data[subject := job];
      i := i + 1;
    }
    assert elms[..i] == elms;
  }

  /** The companies of some items and one more: those of the items, and the new item's. */
  lemma CompaniesSnoc(elms: seq<Element>)
    requires |elms| > 0
    requires forall k :: 0 <= k < |elms| ==> HasParts(elms[k])
    ensures Companies(elms) == Companies(elms[..|elms| - 1]) + {Company(elms[|elms| - 1])}
  {
    var front, last := elms[..|elms| - 1], |elms| - 1;
    forall c | c in Companies(elms)
      ensures c in Companies(front) + {Company(elms[last])}
    {
      var k :| 0 <= k < |elms| && c == Company(elms[k]);
      if k < last {
        assert front[k] == elms[k];
      }
    }
    forall c | c in Companies(front)
      ensures c in Companies(elms)
    {
      var k :| 0 <= k < |front| && c == Company(front[k]);
      assert elms[k] == front[k];
    }
  }

  /** The keys are the seed's and the companies written, nothing else. */
  lemma {:induction false} WrittenKeys(data: map<string, string>, elms: seq<Element>)
    requires forall k :: 0 <= k < |elms| ==> HasParts(elms[k])
    ensures Written(data, elms).Keys == data.Keys + Companies(elms)
  {
    if elms != [] {
      WrittenKeys(data, elms[..|elms| - 1]);
      CompaniesSnoc(elms);
    }
  }

  /** The value under a company is the title of the last item naming it: later writes win. */
  lemma {:induction false} LastWriteWins(data: map<string, string>, elms: seq<Element>, k: nat)
    requires forall j :: 0 <= j < |elms| ==> HasParts(elms[j])
    requires k < |elms|
    requires forall j :: k < j < |elms| ==> Company(elms[j]) != Company(elms[k])
    ensures Company(elms[k]) in Written(data, elms)
    ensures Written(data, elms)[Company(elms[k])] == Job(elms[k])
  {
    if k < |elms| - 1 {
      var front := elms[..|elms| - 1];
      assert front[k] == elms[k];
      LastWriteWins(data, front, k);
    }
  }

  /** A key no item names keeps the value it had before the items were read. */
  lemma {:induction false} UnnamedKeyKept(data: map<string, string>, elms: seq<Element>, key: string)
    requires forall j :: 0 <= j < |elms| ==> HasParts(elms[j])
    requires key in data
    requires forall j :: 0 <= j < |elms| ==> Company(elms[j]) != key
    ensures key in Written(data, elms) && Written(data, elms)[key] == data[key]
  {
    if elms != [] {
      var front := elms[..|elms| - 1];
      forall j | 0 <= j < |front|
        ensures Company(front[j]) != key
      {
        assert front[j] == elms[j];
      }
      UnnamedKeyKept(data, front, key);
    }
  }

  /** The profile's keys are `name`, `title`, `location` and the companies of the items. */
  lemma ProfileKeys(doc: Element)
    requires WellFormed(doc)
    ensures ProfileMap(doc).Keys == {"name", "title", "location"} + Companies(FindElements(doc, LinkedInCommand.ExperienceSelector))
  {
    WrittenKeys(Seed(doc), FindElements(doc, LinkedInCommand.ExperienceSelector));
  }

  /** The scalar entries survive unless an item's company collides with their key. */
  lemma ScalarKept(doc: Element, key: string)
    requires WellFormed(doc)
    requires key in {"name", "title", "location"}
    requires key !in Companies(FindElements(doc, LinkedInCommand.ExperienceSelector))
    ensures key in ProfileMap(doc) && ProfileMap(doc)[key] == Seed(doc)[key]
  {
    var elms := FindElements(doc, LinkedInCommand.ExperienceSelector);
    forall j | 0 <= j < |elms|
      ensures Company(elms[j]) != key
    {
      assert Company(elms[j]) in Companies(elms);
    }
    UnnamedKeyKept(Seed(doc), elms, key);
  }

  /** Without experience items the profile is exactly the three scalar entries. */
  lemma NoItemsJustSeed(doc: Element)
    requires FindElements(doc, LinkedInCommand.ExperienceSelector) == []
    ensures ProfileMap(doc) == Seed(doc)
    ensures ProfileMap(doc).Keys == {"name", "title", "location"}
  {
  }
}
