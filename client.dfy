/**
 * The decisions the alarm page (components/index.js) takes outside the DOM:
 * the alarm object it sends, whether the alarm button is enabled, which
 * places the dropdown lists, how a roster reply becomes a list of persons and
 * how each person is badged.
 */
module Client {
  import opened Wrappers
  import opened Text
  import opened AssocList
  import opened Json
  import opened Places

  // ---- Alarm payload ----

  /** The form fields the alarm is assembled from. */
  datatype Form = Form(alarmType: string, placeText: string, description: string, details: string, leader: bool)

  const EmptyForm := Form("", "", "", "", false)

  /** `place?.description ? " || " + description : ""`. */
  function DescriptionSuffix(place: Option<Place>): string {
    if place.Some? && place.value.description.Some? && place.value.description.value != "" then
      " || " + place.value.description.value
    else ""
  }

  /**
   * The details text. With typed details `d` and a place description `p`:
   * `d || p` when both are there, else whichever of the two is.
   */
  function FullDetails(details: string, place: Option<Place>): (r: string)
    ensures var p := if place.Some? && place.value.description.Some? then place.value.description.value else "";
      && (details != "" && p != "" ==> r == details + " || " + p)
      && (details == "" ==> r == p)
      && (p == "" ==> r == details)
  {
    var suffix := DescriptionSuffix(place);
    assert suffix != "" ==> suffix[4..] == place.value.description.value;
    details + (if details != "" && suffix != "" then suffix else SubstringFrom(suffix, 4))
  }

  /** The keyword is "TEST" in debug mode whatever the leader switch says; otherwise "FR", with " + K" exactly for the leader. */
  function Keyword(debug: bool, leader: bool): (r: string)
    ensures debug ==> r == "TEST"
    ensures !debug && leader ==> r == "FR + K"
    ensures !debug && !leader ==> r == "FR"
  {
    var keyword := if debug then "TEST" else "FR";
    assert "FR" != "TEST" by { assert |"FR"| != |"TEST"|; }
    keyword + (if leader && keyword != "TEST" then " + K" else "")
  }

  /** `object`: the typed text for an `asPrefix` place and without a place, else the place's name. */
  function AlarmObject(place: Option<Place>, placeText: string): (r: string)
    ensures place.Some? && !place.value.asPrefix ==> r == place.value.name
    ensures place.None? || place.value.asPrefix ==> r == placeText
  {
    if place.Some? && place.value.asPrefix then placeText
    else if place.Some? then place.value.name
    else placeText
  }

  /** `place?.lat ?? null` and `place?.lng ?? null`. */
  function Coordinate(c: Option<real>): Json {
    match c
    case Some(x) => JNum(x)
    case None => JNull
  }

  function Lat(place: Option<Place>): Option<real> {
    if place.Some? then place.value.lat else None
  }

  function Lng(place: Option<Place>): Option<real> {
    if place.Some? then place.value.lng else None
  }

  /** The alarm object `sendAlarm` builds, properties in the order the code lists them. */
  function AlarmData(form: Form, place: Option<Place>, debug: bool): (r: seq<(string, Json)>)
    ensures Keys(r) == ["object", "type", "keyword", "message", "details", "lat", "lng"]
  {
    [("object", JStr(AlarmObject(place, form.placeText))),
     ("type", JStr(form.alarmType)),
     ("keyword", JStr(Keyword(debug, form.leader))),
     ("message", JStr(form.description)),
     ("details", JStr(FullDetails(form.details, place))),
     ("lat", Coordinate(Lat(place))),
     ("lng", Coordinate(Lng(place)))]
  }

  /** Each property of the alarm object reads back as the form and the selected place give it. */
  lemma AlarmDataRead(form: Form, place: Option<Place>, debug: bool)
    ensures var data := AlarmData(form, place, debug);
      && Distinct(Keys(data))
      && Get(data, "object") == Some(JStr(if place.Some? && !place.value.asPrefix then place.value.name
                                          else form.placeText))
      && Get(data, "type") == Some(JStr(form.alarmType))
      && Get(data, "keyword") == Some(JStr(Keyword(debug, form.leader)))
      && Get(data, "message") == Some(JStr(form.description))
      && Get(data, "details") == Some(JStr(FullDetails(form.details, place)))
      && Get(data, "lat") == Some(Coordinate(Lat(place)))
      && Get(data, "lng") == Some(Coordinate(Lng(place)))
      && (place.None? ==> Get(data, "lat") == Some(JNull) && Get(data, "lng") == Some(JNull))
  {
    var data := AlarmData(form, place, debug);
    var ks := Keys(data);
    assert ks[0][0] == 'o' && ks[1][0] == 't' && ks[2][0] == 'k' && ks[3][0] == 'm';
    assert ks[4][0] == 'd' && ks[5][0] == 'l' && ks[6][0] == 'l' && ks[5][1] == 'a' && ks[6][1] == 'n';
    assert Distinct(ks);
    GetEntry(data, 0);
    GetEntry(data, 1);
    GetEntry(data, 2);
    GetEntry(data, 3);
    GetEntry(data, 4);
    GetEntry(data, 5);
    GetEntry(data, 6);
  }

  // ---- Alarm button ----

  /**
   * `checkForm`: the button is enabled exactly when the place text is not all
   * white space or a place with a latitude other than 0 is selected.
   */
  predicate SubmitEnabled(placeText: string, place: Option<Place>): (r: bool)
    ensures r <==> !IsBlank(placeText) || (place.Some? && place.value.lat.Some? && place.value.lat.value != 0.0)
  {
    TrimEmptyIffBlank(placeText);
    Trim(placeText) != "" || Truthy(if Lat(place).Some? then Some(JNum(Lat(place).value)) else None)
  }

  // ---- Dropdown ----

  predicate NameMatches(place: Place, filter: string) {
    Includes(Lower(place.name), Lower(filter))
  }

  /** The dropdown entries: every place for a blank filter, else the places whose name contains the filter, ignoring case. */
  function FilterPlaces(all: seq<Place>, filter: string): (r: seq<Place>)
    ensures IsBlank(filter) ==> r == all
    ensures !IsBlank(filter) ==> r == Matching(all, filter)
  {
    TrimEmptyIffBlank(filter);
    if Trim(filter) != "" then Matching(all, filter) else all
  }

  /** `all.filter(place => place.name.toLowerCase().includes(filter.toLowerCase()))`. */
  function Matching(all: seq<Place>, filter: string): (r: seq<Place>)
    ensures |r| <= |all|
    ensures forall i :: 0 <= i < |r| ==> r[i] in all && NameMatches(r[i], filter)
    ensures forall i :: 0 <= i < |all| && NameMatches(all[i], filter) ==> all[i] in r
  {
    if all == [] then []
    else
      var rest := Matching(all[..|all| - 1], filter);
      assert forall i :: 0 <= i < |all| - 1 ==> all[..|all| - 1][i] == all[i];
      if NameMatches(all[|all| - 1], filter) then rest + [all[|all| - 1]] else rest
  }

  /**
   * The filter keeps exactly the matching places, in their dataset order and
   * each as often as the dataset holds it: the result is embedded in the
   * dataset at positions that include every matching one.
   */
  lemma {:induction false} MatchingIsSubsequence(all: seq<Place>, filter: string)
    ensures exists idx: seq<nat> :: IsEmbedding(idx, Matching(all, filter), all) && Covers(idx, all, filter)
  {
    if all != [] {
      var init := all[..|all| - 1];
      MatchingIsSubsequence(init, filter);
      var idx: seq<nat> :| IsEmbedding(idx, Matching(init, filter), init) && Covers(idx, init, filter);
      MatchingStep(idx, all, filter);
    } else {
      assert IsEmbedding([], Matching(all, filter), all) && Covers([], all, filter);
    }
  }

  /** An embedding of the matches of all but the last place extends to one of the matches of the whole list. */
  lemma MatchingStep(idx: seq<nat>, all: seq<Place>, filter: string)
    requires all != []
    requires IsEmbedding(idx, Matching(all[..|all| - 1], filter), all[..|all| - 1])
    requires Covers(idx, all[..|all| - 1], filter)
    ensures exists idx': seq<nat> :: IsEmbedding(idx', Matching(all, filter), all) && Covers(idx', all, filter)
  {
    var rest := Matching(all[..|all| - 1], filter);
    CoversSnoc(idx, all, filter);
    if NameMatches(all[|all| - 1], filter) {
      assert Matching(all, filter) == rest + [all[|all| - 1]];
      EmbeddingSnoc(idx, rest, all);
      assert IsEmbedding(idx + [|all| - 1], Matching(all, filter), all);
    } else {
      assert Matching(all, filter) == rest;
      EmbeddingWiden(idx, rest, all);
      assert IsEmbedding(idx, Matching(all, filter), all);
    }
  }

  /** Covering the matches of all but the last place, and the last place's position when it matches, covers them all. */
  lemma CoversSnoc(idx: seq<nat>, all: seq<Place>, filter: string)
    requires all != [] && Covers(idx, all[..|all| - 1], filter)
    ensures NameMatches(all[|all| - 1], filter) ==> Covers(idx + [|all| - 1], all, filter)
    ensures !NameMatches(all[|all| - 1], filter) ==> Covers(idx, all, filter)
  {
    var init := all[..|all| - 1];
    forall j | 0 <= j < |all| - 1 && NameMatches(all[j], filter)
      ensures j in idx
    {
      assert init[j] == all[j];
    }
  }

  /** An embedding into all but the last place is one into the whole list. */
  lemma EmbeddingWiden(idx: seq<nat>, sub: seq<Place>, all: seq<Place>)
    requires all != [] && IsEmbedding(idx, sub, all[..|all| - 1])
    ensures IsEmbedding(idx, sub, all)
  {
    forall i | 0 <= i < |idx|
      ensures idx[i] < |all| && all[idx[i]] == sub[i]
    {
      assert all[..|all| - 1][idx[i]] == all[idx[i]];
    }
  }

  /** Taking the last place as well extends the embedding by its position. */
  lemma EmbeddingSnoc(idx: seq<nat>, sub: seq<Place>, all: seq<Place>)
    requires all != [] && IsEmbedding(idx, sub, all[..|all| - 1])
    ensures IsEmbedding(idx + [|all| - 1], sub + [all[|all| - 1]], all)
  {
    EmbeddingWiden(idx, sub, all);
    var idx' := idx + [|all| - 1];
    var sub' := sub + [all[|all| - 1]];
    forall i | 0 <= i < |idx'|
      ensures idx'[i] < |all| && all[idx'[i]] == sub'[i]
    {
      if i < |idx| {
        assert idx'[i] == idx[i] && sub'[i] == sub[i];
      }
    }
    forall i, j | 0 <= i < j < |idx'|
      ensures idx'[i] < idx'[j]
    {
      if j < |idx| {
        assert idx'[i] == idx[i] && idx'[j] == idx[j];
      } else {
        assert idx'[i] == idx[i] < |all| - 1;
      }
    }
  }

  /** Every position of a place that matches the filter is among `idx`. */
  predicate Covers(idx: seq<nat>, all: seq<Place>, filter: string) {
    forall j :: 0 <= j < |all| && NameMatches(all[j], filter) ==> j in idx
  }

  /** `idx` lists, strictly increasing, the positions in `all` that `sub` is taken from. */
  predicate IsEmbedding(idx: seq<nat>, sub: seq<Place>, all: seq<Place>) {
    && |idx| == |sub|
    && (forall i :: 0 <= i < |idx| ==> idx[i] < |all| && all[idx[i]] == sub[i])
    && (forall i, j :: 0 <= i < j < |idx| ==> idx[i] < idx[j])
  }

  // ---- Roster ----

  /** What the roster panel shows after `setPeopleList(data)`. */
  datatype Roster =
    | Initial                                       // the panel as the page's markup has it
    | Placeholder                                   // "Liste leer"
    | Listed(headline: string, persons: seq<Json>)
    | Cleared                                       // a TypeError left the list emptied

  const AvailableHeadline := "Verf\U{00FC}gbare Personen"
  const AcceptedHeadline := "Zusagen"

  /** `Object.keys(data).length`; `None` where `Object.keys` throws (null). */
  function OwnKeyCount(data: Json): Option<nat> {
    match data
    case JNull => None
    case JObj(fields) => Some(|fields|)
    case JArr(items) => Some(|items|)
    case JStr(s) => Some(|s|)
    case _ => Some(0)
  }

  /** `[...v]`: arrays spread their items, strings their characters; anything else throws. */
  function Spread(v: Option<Json>): (r: Option<seq<Json>>)
    ensures v.Some? && v.value.JArr? ==> r == Some(v.value.items)
  {
    match v
    case Some(JArr(items)) => Some(items)
    case Some(JStr(s)) => Some(seq(|s|, i requires 0 <= i < |s| => JStr([s[i]])))
    case _ => None
  }

  /** The list is appended only when every person's item is created; one that throws leaves the panel emptied. */
  function ShowList(headline: string, persons: seq<Json>): (r: Roster)
    ensures r.Listed? <==> AllRenderable(persons)
    ensures r.Listed? ==> r == Listed(headline, persons)
    ensures !r.Listed? ==> r == Cleared
  {
    if AllRenderable(persons) then Listed(headline, persons) else Cleared
  }

  /**
   * `setPeopleList(data)`. An object without keys shows the placeholder. A
   * roster with an `absent` group lists available, absent and unavailable
   * persons, each group in its own order, under the availability headline;
   * an array roster is listed as is under the acceptance headline. A person
   * whose item cannot be created leaves the list emptied instead.
   */
  function NormalizeRoster(data: Json): (r: Roster)
    ensures data == JObj([]) ==> r == Placeholder
    ensures data == JNull ==> r == Cleared
    ensures (data.JObj? && data.fields != [] && Field(data, "persons").Some? && Field(data, "persons").value.JArr?)
            ==> var items := Field(data, "persons").value.items;
                && (AllRenderable(items) ==> r == Listed(AcceptedHeadline, items))
                && (!AllRenderable(items) ==> r == Cleared)
    ensures data.JObj? && data.fields != [] && Field(data, "persons").Some? && Field(data, "persons").value.JObj?
      ==> var groups := Field(data, "persons").value.fields;
          var available := Get(groups, "available");
          var absent := Get(groups, "absent");
          var unavailable := Get(groups, "unavailable");
          (absent.Some? && absent.value.JArr? && available.Some? && available.value.JArr?
             && unavailable.Some? && unavailable.value.JArr?)
          ==> var all := available.value.items + absent.value.items + unavailable.value.items;
              && (AllRenderable(all) ==> r == Listed(AvailableHeadline, all))
              && (!AllRenderable(all) ==> r == Cleared)
    ensures OwnKeyCount(data) == Some(0) ==> r == Placeholder
    ensures OwnKeyCount(data).Some? && OwnKeyCount(data) != Some(0)
            && !(Field(data, "persons").Some? && (Field(data, "persons").value.JArr? || Field(data, "persons").value.JObj?))
            ==> r == Cleared
    ensures Field(data, "persons").Some? && Field(data, "persons").value.JObj?
            && "absent" !in Keys(Field(data, "persons").value.fields)
            ==> r == Cleared
    ensures Field(data, "persons").Some? && Field(data, "persons").value.JObj?
      ==> var groups := Field(data, "persons").value.fields;
          ("absent" in Keys(groups)
           && (Spread(Get(groups, "available")).None? || Spread(Get(groups, "absent")).None?
               || Spread(Get(groups, "unavailable")).None?))
          ==> r == Cleared
    ensures r.Listed? ==> data.JObj? && data.fields != []
    ensures r.Listed? ==> forall i :: 0 <= i < |r.persons| ==> Classify(r.persons[i]).Some?
    ensures r != Initial
  {
    match OwnKeyCount(data)
    case None => Cleared
    case Some(n) =>
      if n == 0 then Placeholder
      else
        var persons := Field(data, "persons");
        var headline := if Truthy(Field(persons.GetOr(JNull), "absent")) then AvailableHeadline else AcceptedHeadline;
        match persons
        case Some(JObj(groups)) =>
          if "absent" in Keys(groups) then
            match (Spread(Get(groups, "available")), Spread(Get(groups, "absent")), Spread(Get(groups, "unavailable")))
            case (Some(a), Some(b), Some(c)) => ShowList(headline, a + b + c)
            case _ => Cleared
          else Cleared   // a plain object has no forEach
        case Some(JArr(items)) => ShowList(headline, items)
        case _ => Cleared
  }

  /** A null person makes `createPersonItem` throw, so `{"persons": [null]}` leaves the list emptied, although `persons` is assigned. */
  lemma NullPersonClearsList()
    ensures NormalizeRoster(JObj([("persons", JArr([JNull]))])) == Cleared
    ensures AssignedPersons(JObj([("persons", JArr([JNull]))])) == Some(JArr([JNull]))
  {
    var data := JObj([("persons", JArr([JNull]))]);
    assert Field(data, "persons") == Some(JArr([JNull]));
    assert !Renderable([JNull][0]);
  }

  /**
   * What `setPeopleList(data)` assigns to the page's `persons` variable, or
   * `None` when it returns or throws before the assignment. A roster whose
   * `persons` is an object without `absent` is assigned and only then fails
   * at `forEach`.
   */
  function AssignedPersons(data: Json): (r: Option<Json>)
    ensures NormalizeRoster(data).Listed? ==> r == Some(JArr(NormalizeRoster(data).persons))
    ensures r.Some? && !r.value.JArr? ==> NormalizeRoster(data) == Cleared && r == Field(data, "persons")
    ensures OwnKeyCount(data) in {None, Some(0)} ==> r.None?
    ensures r.Some? ==> r.value.JArr? || r.value.JObj?
    ensures !(Field(data, "persons").Some? && (Field(data, "persons").value.JArr? || Field(data, "persons").value.JObj?))
            ==> r.None?
    ensures Field(data, "persons").Some? && Field(data, "persons").value.JArr? ==> r == Field(data, "persons")
    ensures Field(data, "persons").Some? && Field(data, "persons").value.JObj?
      ==> var groups := Field(data, "persons").value.fields;
          var available := Spread(Get(groups, "available"));
          var absent := Spread(Get(groups, "absent"));
          var unavailable := Spread(Get(groups, "unavailable"));
          && ("absent" !in Keys(groups) ==> r == Field(data, "persons"))
          && ("absent" in Keys(groups) && available.Some? && absent.Some? && unavailable.Some?
              ==> r == Some(JArr(available.value + absent.value + unavailable.value)))
          && ("absent" in Keys(groups) && (available.None? || absent.None? || unavailable.None?) ==> r.None?)
  {
    match OwnKeyCount(data)
    case None => None
    case Some(n) =>
      if n == 0 then None
      else
        match Field(data, "persons")
        case Some(JObj(groups)) =>
          if "absent" in Keys(groups) then
            match (Spread(Get(groups, "available")), Spread(Get(groups, "absent")), Spread(Get(groups, "unavailable")))
            case (Some(a), Some(b), Some(c)) => Some(JArr(a + b + c))
            case _ => None
          else Some(JObj(groups))
        case Some(JArr(items)) => Some(JArr(items))
        case _ => None
  }

  // ---- Person badges ----

  /** The icon (empty when none) and the CSS class of a person's list item. */
  datatype Badge = Badge(icon: string, cls: string)

  function StatusBadge(status: string): Option<Badge> {
    if status == "REQUESTED" then Some(Badge("question_mark", "requested"))
    else if status == "ACCEPTED" then Some(Badge("check", "accepted"))
    else if status == "REJECTED" then Some(Badge("close", "rejected"))
    else None
  }

  /** The person's `status` is one of the three the status table knows. */
  predicate HasKnownStatus(person: Json) {
    Field(person, "status") in {Some(JStr("REQUESTED")), Some(JStr("ACCEPTED")), Some(JStr("REJECTED"))}
  }

  /**
   * `person?.skills?.forEach(...)` completes: no skills, or an array of
   * skills none of which is null (reading `shortTitle` of null throws, and
   * any other value has no `forEach` to call).
   */
  predicate SkillsRenderable(skills: Option<Json>) {
    match skills
    case None => true
    case Some(JNull) => true
    case Some(JArr(items)) => forall i :: 0 <= i < |items| ==> !items[i].JNull?
    case _ => false
  }

  /** `createPersonItem(person)` returns an item: the badge is defined and the skill chips are created. */
  predicate Renderable(person: Json): (r: bool)
    ensures r <==> !person.JNull? && SkillsRenderable(Field(person, "skills"))
    ensures r ==> Classify(person).Some?
  {
    Classify(person).Some? && SkillsRenderable(Field(person, "skills"))
  }

  predicate AllRenderable(persons: seq<Json>) {
    forall i :: 0 <= i < |persons| ==> Renderable(persons[i])
  }

  /**
   * `createPersonItem(person)`'s badge; `None` for a null person, whose
   * property access throws. A known status decides the badge; otherwise
   * `available === false` gives rejected, `available === true` with a date
   * that is not null (a missing date included) gives requested, and
   * everything else accepted, all three without an icon.
   */
  function Classify(person: Json): (r: Option<Badge>)
    ensures person.JNull? <==> r.None?
    ensures Field(person, "status") == Some(JStr("REQUESTED")) ==> r == Some(Badge("question_mark", "requested"))
    ensures Field(person, "status") == Some(JStr("ACCEPTED")) ==> r == Some(Badge("check", "accepted"))
    ensures Field(person, "status") == Some(JStr("REJECTED")) ==> r == Some(Badge("close", "rejected"))
    ensures r.Some? ==> (r.value.icon != "" <==> HasKnownStatus(person))
    ensures !person.JNull? && !HasKnownStatus(person) ==>
      && r.Some? && r.value.icon == ""
      && (r.value.cls == "rejected" <==> Field(person, "available") == Some(JBool(false)))
      && (r.value.cls == "requested" <==>
            Field(person, "available") == Some(JBool(true)) && Field(person, "unavailableOrAbsenceDate") != Some(JNull))
    ensures r.Some? ==> r.value.cls in {"requested", "accepted", "rejected"}
  {
    if person.JNull? then None
    else
      var byStatus := match Field(person, "status")
                      case Some(JStr(s)) => StatusBadge(s)
                      case _ => None;
      if byStatus.Some? then byStatus
      else if Field(person, "available") == Some(JBool(false)) then Some(Badge("", "rejected"))
      else if Field(person, "available") == Some(JBool(true)) && Field(person, "unavailableOrAbsenceDate") != Some(JNull)
      then Some(Badge("", "requested"))
      else Some(Badge("", "accepted"))
  }
}
