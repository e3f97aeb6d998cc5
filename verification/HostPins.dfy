/** Keys kept on first use, in memory and in a file whose saves may fail
    (crates/starla-controller/src/ssh.rs:264-328): what a restart keeps. */
module HostPins {

  /** What is known, and what the file holds of it. */
  datatype Pins = Pins(known: map<string, string>, saved: map<string, string>)

  /** A key presented for a name, and whether a save then succeeds; or a
      restart, which loads the file. */
  datatype Event = Presents(name: string, key: string, saves: bool) | Restarts

  /** Only a new name changes anything; a save writes all that is known. */
  function Step(p: Pins, e: Event): Pins {
    match e
    case Restarts => Pins(p.saved, p.saved)
    case Presents(name, key, saves) =>
      if name in p.known then p
      else
        var known := p.known[name := key];
        Pins(known, if saves then known else p.saved)
  }

  function Run(p: Pins, events: seq<Event>, n: nat): Pins
    requires n <= |events|
  {
    if n == 0 then p else Step(Run(p, events, n - 1), events[n - 1])
  }

  predicate Holds(pins: map<string, string>, name: string, key: string) {
    name in pins && pins[name] == key
  }

  /** All that the file holds is known. */
  ghost predicate Covered(p: Pins) {
    forall name :: name in p.saved ==> Holds(p.known, name, p.saved[name])
  }

  /** Event `k` saves a new name, and with it all others. */
  predicate SavesAll(p: Pins, events: seq<Event>, k: nat)
    requires k < |events|
  {
    events[k].Presents? && events[k].saves && events[k].name !in Run(p, events, k).known
  }

  ghost predicate SavedIn(p: Pins, events: seq<Event>, i: nat, j: nat)
    requires i <= j <= |events|
  {
    exists k: nat :: i <= k < j && SavesAll(p, events, k)
  }

  lemma {:induction false} RunIsCovered(p: Pins, events: seq<Event>, n: nat)
    requires n <= |events| && Covered(p)
    ensures Covered(Run(p, events, n))
  {
    if n > 0 { RunIsCovered(p, events, n - 1); }
  }

  lemma {:induction false} SavedStays(p: Pins, events: seq<Event>, name: string, key: string, i: nat, j: nat)
    requires Covered(p) && i <= j <= |events| && Holds(Run(p, events, i).saved, name, key)
    ensures Holds(Run(p, events, j).saved, name, key)
    decreases j - i
  {
    if i < j {
      RunIsCovered(p, events, j - 1);
      SavedStays(p, events, name, key, i, j - 1);
    }
  }

  /** Nothing but saving a new name changes the file. */
  lemma {:induction false} FileIsSame(p: Pins, events: seq<Event>, i: nat, j: nat)
    requires i <= j <= |events| && !SavedIn(p, events, i, j)
    ensures Run(p, events, j).saved == Run(p, events, i).saved
    decreases j - i
  {
    if i < j {
      assert !SavesAll(p, events, j - 1);
      FileIsSame(p, events, i, j - 1);
    }
  }

  lemma {:induction false} KnownStays(p: Pins, events: seq<Event>, name: string, key: string, i: nat, j: nat)
    requires i <= j <= |events| && Holds(Run(p, events, i).known, name, key)
    requires forall k: nat :: i <= k < j ==> !events[k].Restarts?
    ensures Holds(Run(p, events, j).known, name, key)
    decreases j - i
  {
    if i < j { KnownStays(p, events, name, key, i, j - 1); }
  }

  /** Each restart from event `i` to event `j` comes after the name's key was
      in the file: at the beginning, or since a new name was saved. */
  ghost predicate Secured(p: Pins, events: seq<Event>, name: string, i: nat, j: nat)
    requires i <= j <= |events|
  {
    forall r: nat :: i <= r < j && events[r].Restarts? ==>
      name in Run(p, events, i).saved || SavedIn(p, events, i, r)
  }

  /** A save of a new name, while the key is known, puts it in the file for
      good. */
  lemma SavePins(p: Pins, events: seq<Event>, name: string, key: string, k: nat, j: nat)
    requires Covered(p) && k < j <= |events| && SavesAll(p, events, k)
    requires Holds(Run(p, events, k).known, name, key)
    ensures Holds(Run(p, events, j).saved, name, key)
  {
    assert Holds(Run(p, events, k + 1).saved, name, key);
    SavedStays(p, events, name, key, k + 1, j);
  }

  lemma {:induction false} SecuredIsKept(p: Pins, events: seq<Event>, name: string, key: string, i: nat, j: nat)
    requires Covered(p) && i <= j <= |events| && Holds(Run(p, events, i).known, name, key)
    requires Secured(p, events, name, i, j)
    ensures Holds(Run(p, events, j).known, name, key)
    decreases j
  {
    if i < j {
      var r := j - 1;
      SecuredIsKept(p, events, name, key, i, r);
      if events[r].Restarts? {
        if name in Run(p, events, i).saved {
          RunIsCovered(p, events, i);
          SavedStays(p, events, name, key, i, r);
        } else {
          var k: nat :| i <= k < r && SavesAll(p, events, k);
          SecuredIsKept(p, events, name, key, i, k);
          SavePins(p, events, name, key, k, r);
        }
      }
    }
  }

  /** A name neither known nor in the file is so until it is presented. */
  lemma {:induction false} UnknownStays(p: Pins, events: seq<Event>, name: string, i: nat, j: nat)
    requires i <= j <= |events|
    requires name !in Run(p, events, i).known && name !in Run(p, events, i).saved
    requires forall k: nat :: i <= k < j && events[k].Presents? ==> events[k].name != name
    ensures name !in Run(p, events, j).known && name !in Run(p, events, j).saved
    decreases j - i
  {
    if i < j { UnknownStays(p, events, name, i, j - 1); }
  }

  lemma UnsecuredIsLost(p: Pins, events: seq<Event>, name: string, i: nat, j: nat)
    requires i <= j <= |events| && !Secured(p, events, name, i, j)
    requires forall k: nat :: i <= k < j && events[k].Presents? ==> events[k].name != name
    ensures name !in Run(p, events, j).known
  {
    var r: nat :| i <= r < j && events[r].Restarts?
                  && !(name in Run(p, events, i).saved || SavedIn(p, events, i, r));
    FileIsSame(p, events, i, r);
    UnknownStays(p, events, name, r + 1, j);
  }

  /** Over any run, restarts and saves that fail included: a key that is known
      is still known later, its name not presented again meanwhile, if and only
      if at every restart in between the file had it, from before or from a
      save of some new name since. */
  lemma KeptIffSecured(p: Pins, events: seq<Event>, name: string, key: string, i: nat, j: nat)
    requires Covered(p) && i <= j <= |events| && Holds(Run(p, events, i).known, name, key)
    requires forall k: nat :: i <= k < j && events[k].Presents? ==> events[k].name != name
    ensures Holds(Run(p, events, j).known, name, key) <==> Secured(p, events, name, i, j)
    ensures name in Run(p, events, j).known <==> Secured(p, events, name, i, j)
  {
    if Secured(p, events, name, i, j) {
      SecuredIsKept(p, events, name, key, i, j);
    } else {
      UnsecuredIsLost(p, events, name, i, j);
    }
  }

  /** The first restart after a key is known leaves it if and only if the file
      held it or a new name was saved in between. */
  lemma FirstRestartKeeps(p: Pins, events: seq<Event>, name: string, key: string, i: nat, r: nat)
    requires Covered(p) && i <= r < |events| && Holds(Run(p, events, i).known, name, key)
    requires events[r].Restarts? && forall k: nat :: i <= k < r ==> !events[k].Restarts?
    ensures Holds(Run(p, events, r + 1).known, name, key) <==>
            name in Run(p, events, i).saved || SavedIn(p, events, i, r)
    ensures name in Run(p, events, r + 1).known ==> Holds(Run(p, events, r + 1).known, name, key)
  {
    RunIsCovered(p, events, r);
    KnownStays(p, events, name, key, i, r);
    if name in Run(p, events, i).saved || SavedIn(p, events, i, r) {
      SecuredIsKept(p, events, name, key, i, r + 1);
    } else {
      FileIsSame(p, events, i, r);
    }
  }

  /** While every save succeeds, the file holds all that is known. */
  lemma {:induction false} AllSavedIsSame(p: Pins, events: seq<Event>, n: nat)
    requires n <= |events| && p.saved == p.known
    requires forall k: nat :: k < n && events[k].Presents? ==> events[k].saves
    ensures Run(p, events, n).saved == Run(p, events, n).known
  {
    if n > 0 { AllSavedIsSame(p, events, n - 1); }
  }
}
