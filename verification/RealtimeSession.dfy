/** The realtime session and its model driver keep a copy of the settings each. */
module RealtimeSession {
  import opened Items
  import opened RealtimeSettings

  // ---- the session's copy and the driver's copy ----

  class ModelDriver {
    var model: Option<string>
    var applied: Option<Settings>

    constructor (name: Option<string>)
      ensures model == name && applied == None
    {
      model, applied := name, None;
    }

    /** The driver merges whatever it is given into what it applied before. */
    method UpdateSession(settings: Settings)
      modifies this
      ensures applied == Some(Persist(if old(applied).Some? then Merge(old(applied).value, settings) else settings))
      ensures model == Or(applied.value.modelName, old(model))
    {
      var merged := settings;
      if applied.Some? { merged := MergeSettings(applied.value, settings); }
      merged := NormalizeSettings(merged);
      if merged.modelName.Some? { model := merged.modelName; }
      applied := Some(WithoutClearMarkers(merged));
    }
  }

  /** What the session sends to the driver: the merged settings, with their markers. */
  function Outgoing(current: Option<Settings>, update: Option<Settings>): Option<Settings> {
    match (current, update)
    case (Some(c), Some(u)) => Some(NormalizeEffective(Merge(c, u)))
    case (None, Some(u)) => Some(NormalizeEffective(u))
    case (Some(c), None) => Some(c)
    case (None, None) => None
  }

  /** What the session keeps of it. */
  function Kept(current: Option<Settings>, update: Option<Settings>): Option<Settings> {
    match Outgoing(current, update)
    case None => None
    case Some(m) => Some(WithoutClearMarkers(m))
  }

  /** What a driver holds after the session sent it `outgoing`. */
  function Applied(applied: Option<Settings>, outgoing: Option<Settings>): Option<Settings> {
    match outgoing
    case None => applied
    case Some(m) => Some(Persist(if applied.Some? then Merge(applied.value, m) else m))
  }

  ghost predicate InStep(session: Option<Settings>, applied: Option<Settings>) {
    && (session.Some? ==> Settled(session.value))
    && (applied.Some? ==> applied == session)
  }

  /** One update keeps the two copies in step, and leaves them equal once there are settings. */
  lemma UpdateKeepsStep(session: Option<Settings>, applied: Option<Settings>, update: Option<Settings>)
    requires InStep(session, applied)
    ensures InStep(Kept(session, update), Applied(applied, Outgoing(session, update)))
    ensures Kept(session, update).Some? ==> Applied(applied, Outgoing(session, update)) == Kept(session, update)
  {
    hide Merge, NormalizeEffective, WithoutClearMarkers, Settled;
    match (session, update)
    case (Some(s), Some(u)) =>
      PersistSettles(Merge(s, u));
      MergeAbsorbs(s, u);
      NormalizeTwice(Merge(s, u));
    case (None, Some(u)) =>
      PersistSettles(u);
      NormalizeTwice(u);
    case (Some(s), None) =>
      SettledStays(s);
      MergeSelf(s);
    case (None, None) =>
  }

  class Session {
    var modelSettings: Option<Settings>
    var driver: ModelDriver?

    ghost predicate Valid()
      reads this, driver
    {
      InStep(modelSettings, if driver == null then None else driver.applied)
    }

    constructor ()
      ensures Valid() && modelSettings == None && driver == null
    {
      modelSettings, driver := None, null;
    }

    /** A driver is attached before it has applied anything. */
    method AttachModelDriver(newDriver: ModelDriver)
      requires Valid() && newDriver.applied == None
      modifies this
      ensures Valid() && driver == newDriver && modelSettings == old(modelSettings)
    {
      driver := newDriver;
    }

    method UpdateAgent(update: Option<Settings>)
      requires Valid()
      modifies this`modelSettings, driver
      ensures Valid() && driver == old(driver)
      ensures modelSettings == Kept(old(modelSettings), update)
      ensures driver != null && modelSettings.Some? ==> driver.applied == modelSettings
      ensures driver != null && modelSettings.None? ==> driver.applied == old(driver.applied)
    {
      UpdateKeepsStep(modelSettings, if driver == null then None else driver.applied, update);
      var merged := update;
      if modelSettings.Some? && update.Some? {
        var m := MergeSettings(modelSettings.value, update.value);
        m := NormalizeSettings(m);
        merged := Some(m);
      } else if update.Some? {
        var m := NormalizeSettings(update.value);
        merged := Some(m);
      } else {
        merged := modelSettings;
      }
      assert merged == Outgoing(modelSettings, update);
      if merged.Some? && driver != null { driver.UpdateSession(merged.value); }
      modelSettings := if merged.Some? then Some(WithoutClearMarkers(merged.value)) else None;
    }
  }

  // ---- any history of updates and attached drivers ----

  datatype Event = Update(settings: Option<Settings>) | Attach

  datatype Copies = Copies(session: Option<Settings>, driver: Option<Option<Settings>>)

  function After(c: Copies, e: Event): Copies {
    match e
    case Attach => Copies(c.session, Some(None))
    case Update(u) =>
      Copies(Kept(c.session, u), if c.driver.Some? then Some(Applied(c.driver.value, Outgoing(c.session, u))) else None)
  }

  function Run(history: seq<Event>): Copies {
    if history == [] then Copies(None, None) else After(Run(history[..|history| - 1]), history[|history| - 1])
  }

  /** After any history the driver, if there is one, has applied nothing yet or holds exactly what the
      session holds; right after an update that leaves the session with settings it holds them. */
  lemma {:induction false} CopiesAgree(history: seq<Event>)
    ensures var c := Run(history); c.driver.Some? ==> InStep(c.session, c.driver.value)
    ensures var c := Run(history); c.session.Some? ==> Settled(c.session.value)
    ensures var c := Run(history);
      history != [] && history[|history| - 1].Update? && c.session.Some? && c.driver.Some? ==>
        c.driver.value == c.session
  {
    hide Kept, Outgoing, Applied, Settled;
    if history != [] {
      var before, last := Run(history[..|history| - 1]), history[|history| - 1];
      CopiesAgree(history[..|history| - 1]);
      if last.Update? {
        UpdateKeepsStep(before.session, None, last.settings);
        if before.driver.Some? { UpdateKeepsStep(before.session, before.driver.value, last.settings); }
      }
    }
  }

  /** What the session holds depends on the updates alone, not on the drivers that came and went. */
  function Updates(history: seq<Event>): seq<Event> {
    if history == [] then []
    else if history[|history| - 1].Attach? then Updates(history[..|history| - 1])
    else Updates(history[..|history| - 1]) + [history[|history| - 1]]
  }

  lemma {:induction false} SessionIgnoresDrivers(history: seq<Event>)
    ensures Run(Updates(history)).session == Run(history).session
    ensures forall e :: e in Updates(history) ==> e.Update?
  {
    if history != [] {
      var init, last := history[..|history| - 1], history[|history| - 1];
      SessionIgnoresDrivers(init);
      if last.Update? { assert (Updates(init) + [last])[..|Updates(init)|] == Updates(init); }
    }
  }
}
