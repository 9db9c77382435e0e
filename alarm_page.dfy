/**
 * The alarm page's state and its handlers (components/index.js): the selected
 * place, the form, the overlay, the poll timer, the roster, and the logs of
 * what the page sends (`outbox`) and the alerts it shows (`alerts`).
 */
module Page {
  import opened Wrappers
  import opened Json
  import opened Http
  import opened Places
  import opened Client
  import opened ApiService

  const PrimaryFailedAlert := "Fehler beim Ausl\U{00F6}sen des Alarms! Wechsel auf Backup!"
  const NetworkAlert := "Ein Netzwerkfehler ist beim Ausl\U{00F6}sen des Alarms aufgetreten!"
  const BackupOkAlert := "Backup wurde erfolgreich ausgel\U{00F6}st!"
  const BackupErrorAlert := "Fehler beim Ausl\U{00F6}sen des Backups!"

  /** The two reads of `updateFFAgentData`. */
  function RefreshRequests(key: Option<string>): seq<Request> {
    [CallRequest(key), PeopleRequest(key)]
  }

  /** The alarm requests one press of the alarm button sends, given how the primary and the backup fare. */
  function AlarmRequests(key: Option<string>, prims: Primitives, data: seq<(string, Json)>,
                         primary: Outcome, backup: Outcome): seq<Request> {
    if primary.NotOk? then [TriggerAlarm(key, prims, data), TriggerBackupAlarm(key, prims, data)]
    else [TriggerAlarm(key, prims, data)]
  }

  /** The alerts one press of the alarm button shows. */
  function AlarmAlerts(primary: Outcome, backup: Outcome): seq<string> {
    match primary
    case Ok => []
    case Throws => [NetworkAlert]
    case NotOk(_) =>
      [PrimaryFailedAlert] + match backup
                             case Ok => [BackupOkAlert]
                             case NotOk(_) => []
                             case Throws => [BackupErrorAlert]
  }

  /** The roster panel after `updateFFAgentData()`: unchanged unless both reads delivered JSON. */
  function RosterAfterRefresh(key: Option<string>, respond: Request -> Option<Json>, before: Roster): Roster {
    match FetchFFAgentData(key, respond)
    case None => before
    case Some((_, peopleRes)) => NormalizeRoster(peopleRes)
  }

  /** The `persons` variable after `updateFFAgentData()`: assigned only where `setPeopleList` gets that far. */
  function PersonsAfterRefresh(key: Option<string>, respond: Request -> Option<Json>, before: Option<Json>): Option<Json> {
    match FetchFFAgentData(key, respond)
    case None => before
    case Some((_, peopleRes)) => if AssignedPersons(peopleRes).Some? then AssignedPersons(peopleRes) else before
  }

  /** The page is reset after the alarm: the primary or, after a rejected primary, the backup went through. */
  predicate Resets(primary: Outcome, backup: Outcome) {
    primary.Ok? || (primary.NotOk? && backup.Ok?)
  }

  /**
   * One press of the alarm button: the primary request always goes out; one
   * backup follows exactly when the primary was answered with a non-ok
   * status, never after a thrown error, and it carries the same alarm object
   * with keyword "TEST". A not-ok backup adds no alert of its own.
   */
  lemma AlarmFlow(key: Option<string>, prims: Primitives, data: seq<(string, Json)>, primary: Outcome, backup: Outcome)
    ensures var sent := AlarmRequests(key, prims, data, primary, backup);
      && sent[0] == TriggerAlarm(key, prims, data)
      && (|sent| == 2 <==> primary.NotOk?)
      && (|sent| == 2 ==> sent[1] == TriggerAlarm(key, prims, BackupPayload(data)))
      && |sent| <= 2
    ensures Resets(primary, backup) <==> primary.Ok? || BackupOkAlert in AlarmAlerts(primary, backup)
    ensures primary.Throws? ==> AlarmAlerts(primary, backup) == [NetworkAlert]
    ensures primary.NotOk? && backup.NotOk? ==> AlarmAlerts(primary, backup) == [PrimaryFailedAlert]
    ensures BackupOkAlert in AlarmAlerts(primary, backup) <==> primary.NotOk? && backup.Ok?
  {
    BackupSharesTarget(key, prims, data);
    assert BackupOkAlert != PrimaryFailedAlert by { assert BackupOkAlert[0] != PrimaryFailedAlert[0]; }
    assert BackupOkAlert != NetworkAlert by { assert |BackupOkAlert| != |NetworkAlert|; }
    assert BackupOkAlert != BackupErrorAlert by { assert BackupOkAlert[0] != BackupErrorAlert[0]; }
  }

  class AlarmPage {
    const repo: PlaceRepository
    const securityKey: Option<string>
    const debug: bool
    const prims: Primitives

    var form: Form
    var place: Option<Place>
    /** `alarmButton.disabled`, as `checkForm` last set it. */
    var alarmDisabled: bool
    var overlayShown: bool
    var timerArmed: bool
    var roster: Roster
    /** The page's `persons` variable; `None` while it is still undefined. */
    var persons: Option<Json>
    var outbox: seq<Request>
    var alerts: seq<string>

    ghost predicate Valid()
      reads this, repo
    {
      repo.Valid()
    }

    /** The page after loading: an empty form, no selection, and `checkForm` has disabled the alarm button. */
    constructor (repo: PlaceRepository, securityKey: Option<string>, debug: bool, prims: Primitives)
      requires repo.Valid()
      ensures Valid()
      ensures this.repo == repo && this.securityKey == securityKey && this.debug == debug && this.prims == prims
      ensures form == EmptyForm && place == None && alarmDisabled && !overlayShown && !timerArmed
      ensures roster == Initial && persons == None && outbox == [] && alerts == []
    {
      this.repo := repo;
      this.securityKey := securityKey;
      this.debug := debug;
      this.prims := prims;
      form := EmptyForm;
      place := None;
      overlayShown := false;
      timerArmed := false;
      roster := Initial;
      persons := None;
      outbox := [];
      alerts := [];
      new;
      CheckForm();
    }

    /** `checkForm()`: the button is disabled unless the form allows an alarm. */
    method CheckForm()
      modifies this
      ensures alarmDisabled == !SubmitEnabled(form.placeText, place)
      ensures form == old(form) && place == old(place) && overlayShown == old(overlayShown) && timerArmed == old(timerArmed)
      ensures roster == old(roster) && persons == old(persons) && outbox == old(outbox) && alerts == old(alerts)
    {
      var enabled := SubmitEnabled(form.placeText, place);
      alarmDisabled := !enabled;
    }

    /**
     * Typing into the place field: the text is kept, the place it resolves to
     * becomes the selection, and then `checkForm` runs on the new state.
     */
    method OnPlaceInput(text: string)
      requires Valid()
      modifies this
      ensures Valid()
      ensures form == old(form).(placeText := text)
      ensures place == ResolvePlace(repo.dataSource, text)
      ensures alarmDisabled == !SubmitEnabled(text, place)
      ensures overlayShown == old(overlayShown) && timerArmed == old(timerArmed)
      ensures roster == old(roster) && persons == old(persons) && outbox == old(outbox) && alerts == old(alerts)
    {
      form := form.(placeText := text);
      place := repo.FindPlace(text);
      CheckForm();
    }

    /** Typing into the type field: the text is kept and `checkForm` runs. */
    method OnTypeInput(text: string)
      modifies this
      ensures form == old(form).(alarmType := text) && place == old(place)
      ensures alarmDisabled == !SubmitEnabled(form.placeText, place)
      ensures overlayShown == old(overlayShown) && timerArmed == old(timerArmed)
      ensures roster == old(roster) && persons == old(persons) && outbox == old(outbox) && alerts == old(alerts)
    {
      form := form.(alarmType := text);
      CheckForm();
    }

    /**
     * `updateDropdown(filter)`: the entries the dropdown lists, or `None`
     * when the map is on screen and the dropdown is left as it was. Whether
     * the map is shown belongs to the map view, so it is a parameter here.
     */
    method DropdownEntries(filter: string, mapShown: bool) returns (r: Option<seq<Place>>)
      ensures mapShown <==> r.None?
      ensures !mapShown ==> r == Some(FilterPlaces(repo.dataSource, filter))
    {
      if mapShown {
        return None;
      }
      var allPlaces := repo.GetAllPlaceNames();
      r := Some(FilterPlaces(allPlaces, filter));
    }

    /**
     * `setPeopleList(data)`: the panel shows the normalised roster; `persons`
     * takes the value the code assigns, also when the code fails after the
     * assignment, and is otherwise kept. A listed roster is what `persons` holds.
     */
    method SetPeopleList(data: Json)
      modifies this
      ensures roster == NormalizeRoster(data)
      ensures persons == if AssignedPersons(data).Some? then AssignedPersons(data) else old(persons)
      ensures roster.Listed? ==> persons == Some(JArr(roster.persons))
      ensures form == old(form) && place == old(place) && alarmDisabled == old(alarmDisabled)
      ensures overlayShown == old(overlayShown) && timerArmed == old(timerArmed)
      ensures outbox == old(outbox) && alerts == old(alerts)
    {
      roster := NormalizeRoster(data);
      var assignedList := AssignedPersons(data);
      if assignedList.Some? {
        persons := assignedList;
      }
    }

    /** `updateFFAgentData()`: both reads go out; the roster is updated only when both replies arrived as JSON. */
    method UpdateFFAgentData(respond: Request -> Option<Json>)
      modifies this
      ensures outbox == old(outbox) + RefreshRequests(securityKey)
      ensures FetchFFAgentData(securityKey, respond).None? ==> roster == old(roster) && persons == old(persons)
      ensures FetchFFAgentData(securityKey, respond).Some? ==>
                roster == NormalizeRoster(FetchFFAgentData(securityKey, respond).value.1)
      ensures roster == RosterAfterRefresh(securityKey, respond, old(roster))
      ensures persons == PersonsAfterRefresh(securityKey, respond, old(persons))
      ensures form == old(form) && place == old(place) && alarmDisabled == old(alarmDisabled)
      ensures overlayShown == old(overlayShown) && timerArmed == old(timerArmed) && alerts == old(alerts)
    {
      outbox := outbox + RefreshRequests(securityKey);
      var fetched := FetchFFAgentData(securityKey, respond);
      if fetched.Some? {
        SetPeopleList(fetched.value.1);
      }
    }

    /**
     * `resetUI()`: the form is emptied, the selection dropped, the overlay
     * hidden and the data refreshed. `checkForm` does not run, so the alarm
     * button keeps its state.
     */
    method ResetUI(respond: Request -> Option<Json>)
      modifies this
      ensures form == EmptyForm && place == None && !overlayShown
      ensures alarmDisabled == old(alarmDisabled)
      ensures outbox == old(outbox) + RefreshRequests(securityKey)
      ensures roster == RosterAfterRefresh(securityKey, respond, old(roster))
      ensures persons == PersonsAfterRefresh(securityKey, respond, old(persons))
      ensures timerArmed == old(timerArmed) && alerts == old(alerts)
    {
      form := EmptyForm;
      place := None;
      overlayShown := false;
      UpdateFFAgentData(respond);
    }

    /** `sendBackupAlarm(data)`: only an ok backup resets the page; a thrown error alerts; not-ok does nothing more. */
    method SendBackupAlarm(data: seq<(string, Json)>, backup: Outcome, respond: Request -> Option<Json>)
      modifies this
      ensures backup.Ok? ==>
                && form == EmptyForm && place == None && !overlayShown
                && outbox == old(outbox) + [TriggerBackupAlarm(securityKey, prims, data)] + RefreshRequests(securityKey)
                && roster == RosterAfterRefresh(securityKey, respond, old(roster))
                && persons == PersonsAfterRefresh(securityKey, respond, old(persons))
                && alerts == old(alerts) + [BackupOkAlert]
      ensures !backup.Ok? ==>
                && form == old(form) && place == old(place) && overlayShown == old(overlayShown)
                && outbox == old(outbox) + [TriggerBackupAlarm(securityKey, prims, data)]
                && roster == old(roster) && persons == old(persons)
                && alerts == old(alerts) + (if backup.Throws? then [BackupErrorAlert] else [])
      ensures alarmDisabled == old(alarmDisabled) && timerArmed == old(timerArmed)
    {
      outbox := outbox + [TriggerBackupAlarm(securityKey, prims, data)];
      match backup {
        case Ok =>
          ResetUI(respond);
          alerts := alerts + [BackupOkAlert];
        case NotOk(_) =>
        case Throws =>
          alerts := alerts + [BackupErrorAlert];
      }
    }

    /**
     * `sendAlarm()`: the alarm object is assembled from the form and the
     * selection, the overlay is shown and the object is dispatched.
     */
    method SendAlarm(primary: Outcome, backup: Outcome, respond: Request -> Option<Json>)
      modifies this
      ensures var data := AlarmData(old(form), old(place), debug);
        && outbox == old(outbox) + AlarmRequests(securityKey, prims, data, primary, backup)
                     + (if Resets(primary, backup) then RefreshRequests(securityKey) else [])
        && alerts == old(alerts) + AlarmAlerts(primary, backup)
      ensures Resets(primary, backup) ==>
                && form == EmptyForm && place == None && !overlayShown
                && roster == RosterAfterRefresh(securityKey, respond, old(roster))
                && persons == PersonsAfterRefresh(securityKey, respond, old(persons))
      ensures !Resets(primary, backup) ==>
                form == old(form) && place == old(place) && overlayShown && roster == old(roster) && persons == old(persons)
      ensures alarmDisabled == old(alarmDisabled) && timerArmed == old(timerArmed)
    {
      var data := AlarmData(form, place, debug);
      overlayShown := true;
      Dispatch(data, primary, backup, respond);
    }

    /**
     * The `try` block of `sendAlarm`: the primary request goes out; what
     * follows depends on the primary's and, after a rejection, the backup's
     * outcome.
     */
    method Dispatch(data: seq<(string, Json)>, primary: Outcome, backup: Outcome, respond: Request -> Option<Json>)
      modifies this
      ensures outbox == old(outbox) + AlarmRequests(securityKey, prims, data, primary, backup)
                        + (if Resets(primary, backup) then RefreshRequests(securityKey) else [])
      ensures alerts == old(alerts) + AlarmAlerts(primary, backup)
      ensures Resets(primary, backup) ==>
                && form == EmptyForm && place == None && !overlayShown
                && roster == RosterAfterRefresh(securityKey, respond, old(roster))
                && persons == PersonsAfterRefresh(securityKey, respond, old(persons))
      ensures !Resets(primary, backup) ==>
                form == old(form) && place == old(place) && overlayShown == old(overlayShown)
                && roster == old(roster) && persons == old(persons)
      ensures alarmDisabled == old(alarmDisabled) && timerArmed == old(timerArmed)
    {
      ghost var sent := outbox;
      var p := TriggerAlarm(securityKey, prims, data);
      ghost var b := TriggerBackupAlarm(securityKey, prims, data);
      outbox := outbox + [p];
      match primary {
        case Ok =>
          ResetUI(respond);
        case NotOk(_) =>
          alerts := alerts + [PrimaryFailedAlert];
          SendBackupAlarm(data, backup, respond);
          assert sent + [p] + [b] == sent + [p, b];
          assert sent + [p] + [b] + RefreshRequests(securityKey) == sent + [p, b] + RefreshRequests(securityKey);
        case Throws =>
          alerts := alerts + [NetworkAlert];
      }
    }

    /** `startInterval()`: with no timer, one immediate refresh and the timer armed; with a timer, nothing. */
    method StartInterval(respond: Request -> Option<Json>)
      modifies this
      ensures timerArmed
      ensures old(timerArmed) ==> outbox == old(outbox) && roster == old(roster) && persons == old(persons)
      ensures !old(timerArmed) ==>
                && outbox == old(outbox) + RefreshRequests(securityKey)
                && roster == RosterAfterRefresh(securityKey, respond, old(roster))
                && persons == PersonsAfterRefresh(securityKey, respond, old(persons))
      ensures form == old(form) && place == old(place) && alarmDisabled == old(alarmDisabled)
      ensures overlayShown == old(overlayShown) && alerts == old(alerts)
    {
      if !timerArmed {
        UpdateFFAgentData(respond);
        timerArmed := true;
      }
    }

    /** `stopInterval()`: no timer afterwards, whether one was armed or not. */
    method StopInterval()
      modifies this
      ensures !timerArmed
      ensures form == old(form) && place == old(place) && alarmDisabled == old(alarmDisabled)
      ensures overlayShown == old(overlayShown) && alerts == old(alerts)
      ensures outbox == old(outbox) && roster == old(roster) && persons == old(persons)
    {
      timerArmed := false;
    }
  }
}
