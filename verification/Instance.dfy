/**
 Crash-resumable initialization of an instance: marker, configuration, secret,
 database and marker again, each written once and in this order.
 */
module Instance {
  import opened Outcomes

  /** Random identifiers and the listeners chosen at the first initialization. */
  datatype Settings = Settings(instanceId: nat, vaultId: nat, listeners: seq<nat>)

  datatype Marker = Initializing | Ready

  /** The database file: absent, created but not yet initialized, or bound to one identity. */
  datatype Database = Absent | Blank | Bound(instanceId: nat, vaultId: nat)

  datatype WriteStep = MarkStart | WriteConfig | WriteSecret | BindDatabase | MarkReady

  /** How a write goes; every ending but `Fine` ends the attempt, as an error or as a crash. */
  datatype Ending = Fine | StopBefore | StopWithin | StopAfter

  datatype InitOutcome =
    | Complete(settings: Settings)
    | Stopped
    | PartialInstallation
    | ListenersDiffer
    | Unusable

  /** What one attempt brings: the listeners asked for, fresh random values, and how its writes go. */
  datatype Attempt = Attempt(requested: Option<seq<nat>>, drawn: Settings, drawnSecret: nat, endings: WriteStep -> Ending)

  const DEFAULT_LISTENERS := [1, 2]

  class State {
    var marker: Option<Marker>
    var config: Option<Settings>
    var secret: Option<nat>
    var database: Database

    /** Nothing exists before what it depends on, and whatever is bound is bound to the one identity. */
    ghost predicate Valid()
      reads this
    {
      && (config.Some? ==> marker.Some?)
      && (secret.Some? ==> config.Some?)
      && (database != Absent ==> secret.Some? && config.Some?)
      && (database.Bound? ==> config.Some? && database == Bound(config.value.instanceId, config.value.vaultId))
      && (marker == Some(Ready) ==> config.Some? && secret.Some? && database.Bound?)
    }

    constructor ()
      ensures Valid() && marker.None? && config.None? && secret.None? && database == Absent
    {
      marker, config, secret, database := None, None, None, Absent;
    }

    /** What was ever written stays: the identifiers, the secret and the binding never change. */
    twostate predicate Keeps()
      reads this
    {
      && (old(config).Some? ==> config == old(config))
      && (old(secret).Some? ==> secret == old(secret))
      && (old(database).Bound? ==> database == old(database))
      && (old(marker) == Some(Ready) ==> marker == old(marker))
    }

    predicate BoundElsewhere(settings: Settings)
      reads this
    {
      database.Bound? && database != Bound(settings.instanceId, settings.vaultId)
    }

    /** Open the database for an identity, initializing a new file and refusing another identity's. */
    method OpenDatabase(settings: Settings, ending: Ending) returns (ok: bool)
      modifies this`database
      ensures old(database).Bound? ==> database == old(database)
      ensures database.Bound? && !old(database).Bound? ==> database == Bound(settings.instanceId, settings.vaultId)
      ensures old(database) != Absent ==> database != Absent
      ensures ok ==> database == Bound(settings.instanceId, settings.vaultId)
      ensures ok <==> ending == Fine && !old(BoundElsewhere(settings))
    {
      ok := ending == Fine;
      if database.Bound? {
        ok := ok && database == Bound(settings.instanceId, settings.vaultId);
        return;
      }
      if ending == StopWithin {
        database := Blank;
      } else if ending == Fine || ending == StopAfter {
        database := Bound(settings.instanceId, settings.vaultId);
      }
    }

    /**
     One attempt, on any files it may find.  It never replaces what is there.  It refuses a secret or
     a database without a configuration as a partial installation, which no sequence of crashes can
     leave; from what crashes can leave, it resumes what is missing and completes if nothing stops it.
     */
    method Initialize(requested: Option<seq<nat>>, drawn: Settings, drawnSecret: nat, endings: WriteStep -> Ending)
      returns (outcome: InitOutcome)
      modifies this
      ensures Keeps() && (old(Valid()) ==> Valid())
      ensures outcome == PartialInstallation <==>
                old(marker) != Some(Ready) && endings(MarkStart) == Fine && old(config).None? && (old(secret).Some? || old(database) != Absent)
      ensures old(Valid()) ==> outcome != PartialInstallation && outcome != Unusable
      ensures outcome.Complete? ==> marker == Some(Ready) && config == Some(outcome.settings) && secret.Some?
                                    && database == Bound(outcome.settings.instanceId, outcome.settings.vaultId)
      ensures old(Valid()) ==>
                (outcome == ListenersDiffer <==>
                   requested.Some? && old(config).Some? && requested.value != old(config).value.listeners
                   && (old(marker) == Some(Ready) || endings(MarkStart) == Fine))
      ensures old(Valid()) && (forall step :: endings(step) == Fine) && outcome != ListenersDiffer ==> outcome.Complete?
      ensures old(Valid()) && old(marker) == Some(Ready) && outcome != ListenersDiffer ==> outcome.Complete?
      ensures old(config).None? && config.Some? ==>
                config.value == drawn.(listeners := if requested.Some? then requested.value else DEFAULT_LISTENERS)
      ensures old(secret).None? && secret.Some? ==> secret.value == drawnSecret
    {
      if marker == Some(Ready) {
        var found := Open();
        if found.None? {
          return Unusable;
        }
        if requested.Some? && requested.value != found.value.listeners {
          return ListenersDiffer;
        }
        return Complete(found.value);
      }
      if endings(MarkStart) == Fine || endings(MarkStart) == StopAfter {
        marker := Some(Initializing);
      }
      if endings(MarkStart) != Fine {
        return Stopped;
      }
      var settings: Settings;
      if config.None? {
        if secret.Some? || database != Absent {
          return PartialInstallation;
        }
        settings := drawn.(listeners := if requested.Some? then requested.value else DEFAULT_LISTENERS);
        if endings(WriteConfig) == Fine || endings(WriteConfig) == StopAfter {
          config := Some(settings);
        }
        if endings(WriteConfig) != Fine {
          return Stopped;
        }
      } else {
        settings := config.value;
        if requested.Some? && requested.value != settings.listeners {
          return ListenersDiffer;
        }
      }
      if secret.None? {
        if endings(WriteSecret) == Fine || endings(WriteSecret) == StopAfter {
          secret := Some(drawnSecret);
        }
        if endings(WriteSecret) != Fine {
          return Stopped;
        }
      }
      var bound := OpenDatabase(settings, endings(BindDatabase));
      if !bound {
        if endings(BindDatabase) == Fine {
          return Unusable;
        }
        return Stopped;
      }
      if endings(MarkReady) == Fine || endings(MarkReady) == StopAfter {
        marker := Some(Ready);
      }
      if endings(MarkReady) != Fine {
        return Stopped;
      }
      outcome := Complete(settings);
    }

    /** Opening an instance: only one marked complete, with everything it needs and one identity. */
    method Open() returns (settings: Option<Settings>)
      modifies this`database
      ensures old(database).Bound? ==> database == old(database)
      ensures settings.Some? <==> marker == Some(Ready) && config.Some? && secret.Some? && !old(BoundElsewhere(config.value))
      ensures settings.Some? ==> config == settings && database == Bound(settings.value.instanceId, settings.value.vaultId)
      ensures settings.None? ==> database == old(database)
      ensures old(Valid()) ==> database == old(database) && (settings.Some? <==> marker == Some(Ready))
    {
      if marker != Some(Ready) || config.None? || secret.None? {
        return None;
      }
      var ok := OpenDatabase(config.value, Fine);
      if !ok {
        return None;
      }
      return config;
    }

    /**
     Any number of attempts, each stopped anywhere: what the first of them wrote is what all of
     them keep, every completed attempt reports the same settings, and none is refused as partial.
     */
    method InitializeRepeatedly(attempts: seq<Attempt>) returns (outcomes: seq<InitOutcome>)
      requires Valid()
      modifies this
      ensures Valid() && Keeps() && |outcomes| == |attempts|
      ensures forall i | 0 <= i < |outcomes| :: outcomes[i] != PartialInstallation
      ensures forall i | 0 <= i < |outcomes| && outcomes[i].Complete? ::
                marker == Some(Ready) && config == Some(outcomes[i].settings) && secret.Some?
                && database == Bound(outcomes[i].settings.instanceId, outcomes[i].settings.vaultId)
    {
      outcomes := [];
      for n := 0 to |attempts|
        invariant Valid() && Keeps() && |outcomes| == n
        invariant forall i | 0 <= i < n :: outcomes[i] != PartialInstallation
        invariant forall i | 0 <= i < n && outcomes[i].Complete? :: marker == Some(Ready) && config == Some(outcomes[i].settings)
      {
        var a := attempts[n];
        var outcome := Initialize(a.requested, a.drawn, a.drawnSecret, a.endings);
        outcomes := outcomes + [outcome];
      }
    }
  }
}
