/** Demo deployments: a cutover to a new release and its rollback, with a journal that survives a crash at any step.
    The model follows the files and containers the procedures change; each change is one step, and before every step
    the procedure may raise or the host may crash. */
module DemoUpdate {
  import opened Text

  type Release = nat
  type Service = string
  type Image = nat
  type Bytes = seq<bv8>

  datatype Status = Staged | Active | RolledBackAfterFailure

  datatype Record = Record(previous: Release, services: seq<Service>, status: Status)

  /** A file whose rewriting in place is interrupted is left torn. */
  datatype Journal = Absent | Torn | Names(candidate: Release)

  datatype RecordFile = TornRecord | Whole(record: Record)

  /** `current` is the release link, `staleLink` its temporary sibling; `directories` are the release directories, whole
      or not; `images` are the images each release's Compose files pin, and `running` those of the containers; `env` is
      each release's environment file. */
  datatype Host = Host(current: Release, staleLink: bool, journal: Journal, records: map<Release, RecordFile>,
                       directories: set<Release>, images: map<Release, map<Service, Image>>,
                         running: map<Service, Image>, env: map<Release, Bytes>)

  datatype Fate = Proceed | Raise | Crash

  ghost predicate Faultless(fate: nat -> Fate) {
    forall n :: fate(n) == Proceed
  }

  /** The next `count` steps go through. */
  ghost predicate Clear(fate: nat -> Fate, from: nat, count: nat) {
    forall n :: from <= n < from + count ==> fate(n) == Proceed
  }

  /** The steps from `from` to `to` were made and ended so: only the last may have failed, and it decides how. */
  ghost predicate Ran(fate: nat -> Fate, from: nat, to: nat, o: Outcome) {
    && from <= to && o in {Done, Raised, Crashed}
    && (forall n :: from <= n < to - 1 ==> fate(n) == Proceed)
    && (o == Done && from < to ==> fate(to - 1) == Proceed)
    && (o == Raised ==> from < to && fate(to - 1) == Raise)
    && (o == Crashed ==> from < to && fate(to - 1) == Crash)
  }

  lemma {:induction false} RanStep(fate: nat -> Fate, a: nat, b: nat)
    requires Ran(fate, a, b, Done)
    ensures Ran(fate, a, b + 1, match fate(b) case Proceed => Done case Raise => Raised case Crash => Crashed)
  {
  }

  lemma {:induction false} RanOn(fate: nat -> Fate, a: nat, b: nat, c: nat, o: Outcome)
    requires Ran(fate, a, b, Done) && Ran(fate, b, c, o)
    ensures Ran(fate, a, c, o)
  {
  }

  /** From step `from` on nothing crashes, and at most one step raises. */
  ghost predicate RaisesOnce(fate: nat -> Fate, from: nat) {
    && (forall n :: from <= n ==> fate(n) != Crash)
    && forall n, m :: from <= n < m && fate(n) == Raise ==> fate(m) == Proceed
  }

  lemma {:induction false} CrashEnds(fate: nat -> Fate, a: nat, b: nat, o: Outcome)
    requires Ran(fate, a, b, o)
    ensures a <= b && (o != Done ==> a < b) && (b > a ==> (o == Crashed <==> fate(b - 1) == Crash))
    ensures RaisesOnce(fate, a) ==> o != Crashed
  {
  }

  /** After the one step that raises everything goes through. */
  lemma {:induction false} RaiseIsLast(fate: nat -> Fate, a: nat, b: nat, c: nat, o: Outcome)
    requires Ran(fate, a, b, Raised) && Ran(fate, b, c, o) && RaisesOnce(fate, a)
    ensures o == Done
  {
  }

  /** The steps of a staging. */
  const STAGING: nat := 9

  datatype Outcome = Done | Refused | Raised | Crashed

  /** Two releases pin the same images except for `services`. */
  ghost predicate AgreeOutside(images: map<Release, map<Service, Image>>, a: Release, b: Release,
                               services: seq<Service>) {
    && a in images && b in images
    && forall s :: s in images[a] && s in images[b] && s !in services ==> images[a][s] == images[b][s]
  }

  ghost predicate RecordsFit(h: Host) {
    forall r :: r in h.records && h.records[r].Whole? ==>
      var record := h.records[r].record;
      && AgreeOutside(h.images, r, record.previous, record.services)
      && (forall s :: s in record.services ==> s in h.running)
      && r in h.env && record.previous in h.env && h.env[r] == h.env[record.previous]
  }

  ghost predicate WellFormed(h: Host) {
    && h.current in h.images && h.images.Keys <= h.env.Keys <= h.directories
    && (forall r :: r in h.images ==> h.images[r].Keys == h.running.Keys)
    && RecordsFit(h)
  }

  /** In the middle of a cutover to or a rollback from `c`: only the services of its record are in flux. */
  ghost predicate InFlux(h: Host, c: Release, record: Record) {
    && record.previous in h.images
    && h.current in {c, record.previous}
    && forall s :: s in h.running && s in h.images[record.previous] && s !in record.services
         ==> h.running[s] == h.images[record.previous][s]
  }

  /** What a record file may have become while its own cutover runs. */
  predicate SameCutover(f: RecordFile, record: Record) {
    f.Whole? ==> f.record.previous == record.previous && f.record.services == record.services
  }

  /** The journal invariant: without a journal the running images are those of the selected release, and with one the
      journal's record says how far they may differ. */
  ghost predicate Consistent(h: Host) {
    && WellFormed(h)
    && match h.journal
       case Absent => h.running == h.images[h.current]
       case Torn => true
       case Names(c) => c in h.records && (h.records[c].Whole? ==> InFlux(h, c, h.records[c].record))
  }

  /** A host whose journal names `c`, with `record` the record its cutover started from. */
  ghost predicate Cutting(h: Host, c: Release, record: Record) {
    && WellFormed(h) && h.journal == Names(c)
    && c in h.records && SameCutover(h.records[c], record)
    && InFlux(h, c, record) && AgreeOutside(h.images, c, record.previous, record.services)
    && (forall s :: s in record.services ==> s in h.running)
    && h.env[c] == h.env[record.previous]
  }

  /** Nothing staged has changed. */
  ghost predicate SameStage(before: Host, after: Host) {
    after.directories == before.directories && after.images == before.images && after.env == before.env
    && after.running.Keys == before.running.Keys
  }

  lemma {:induction false} CuttingIsConsistent(h: Host, c: Release, record: Record)
    requires Cutting(h, c, record)
    ensures Consistent(h)
  {
  }

  lemma {:induction false} ServicesKnown(h: Host, c: Release, record: Record)
    requires Cutting(h, c, record)
    ensures forall s :: s in record.services ==> s in h.running
    ensures c in h.images && h.images[c].Keys == h.running.Keys
    ensures record.previous in h.images && h.images[record.previous].Keys == h.running.Keys
    ensures h.current in {c, record.previous}
  {
  }

  /** Bringing up its services, switching between its two releases and rewriting its record keep a cutover one. */
  lemma {:induction false} KeepsCutting(h: Host, h': Host, c: Release, record: Record)
    requires Cutting(h, c, record)
    requires SameStage(h, h') && h'.journal == h.journal && h'.current in {c, record.previous}
    requires forall s :: s in h'.running && s !in record.services ==> h'.running[s] == h.running[s]
    requires h'.records == h.records
             || (c in h'.records && h'.records == h.records[c := h'.records[c]] && SameCutover(h'.records[c], record))
    ensures Cutting(h', c, record)
  {
  }

  lemma {:induction false} AllRunning(h: Host, c: Release, record: Record, target: Release)
    requires Cutting(h, c, record) && target in {c, record.previous}
    requires forall s :: s in record.services
               ==> s in h.running && target in h.images && s in h.images[target] && h.running[s] == h.images[target][s]
    ensures h.running == h.images[target]
  {
  }

  lemma {:induction false} EndsConsistent(h: Host, c: Release, record: Record)
    requires Cutting(h, c, record) && h.running == h.images[h.current]
    ensures Consistent(h.(journal := Absent))
  {
  }

  /** Environment files are never rewritten; a release only ever gains one. */
  ghost predicate KeepsEnvironment(before: Host, after: Host) {
    forall r :: r in before.env ==> r in after.env && after.env[r] == before.env[r]
  }

  /** A host that has gained files but changed nothing that runs or is selected. */
  ghost predicate Extends(before: Host, after: Host) {
    && after.current == before.current && after.running == before.running && after.staleLink == before.staleLink
    && KeepsEnvironment(before, after) && before.directories <= after.directories
    && forall r :: r in before.images ==> r in after.images && after.images[r] == before.images[r]
  }

  function WithDirectory(h: Host, c: Release): Host {
    h.(directories := h.directories + {c})
  }

  function WithEnvironment(h: Host, c: Release): Host
    requires h.current in h.env
  {
    h.(env := h.env[c := h.env[h.current]])
  }

  function WithImages(h: Host, c: Release, services: seq<Service>, image: Image): Host
    requires h.current in h.images
  {
    h.(images := h.images[c := Pin(h.images[h.current], services, image)])
  }

  /** The directory of a new release, then its environment, then its images: none touches an existing record. */
  lemma {:induction false} DirectoryExtends(h: Host, c: Release)
    requires Consistent(h)
    ensures Consistent(WithDirectory(h, c)) && Extends(h, h) && Extends(h, WithDirectory(h, c)) && h.current in h.env
  {
    hide AgreeOutside, InFlux;
    assert RecordsFit(WithDirectory(h, c)) by {
      assert forall r :: r in h.records && h.records[r].Whole?
               ==> AgreeOutside(h.images, r, h.records[r].record.previous, h.records[r].record.services);
    }
    assert forall r, record :: InFlux(h, r, record) ==> InFlux(WithDirectory(h, c), r, record) by {
      InFluxIsLocal(h, WithDirectory(h, c));
    }
  }

  lemma {:induction false} InFluxIsLocal(h: Host, h': Host)
    requires h'.images == h.images && h'.current == h.current && h'.running == h.running
    ensures forall r, record :: InFlux(h, r, record) <==> InFlux(h', r, record)
  {
  }

  lemma {:induction false} EnvironmentExtends(before: Host, h: Host, c: Release)
    requires Consistent(h) && h.journal == Absent && Extends(before, h) && c in h.directories && c !in h.env
    ensures h.current in h.env
    ensures var h' := WithEnvironment(h, c); Consistent(h') && Extends(before, h') && h'.env[c] == h'.env[h'.current]
  {
    hide AgreeOutside;
  }

  lemma {:induction false} ImagesExtend(before: Host, h: Host, c: Release, record: Record, image: Image)
    requires Consistent(h) && h.journal == Absent && Extends(before, h) && c !in h.images
             && record.previous == h.current
    requires c in h.env && h.current in h.env && h.env[c] == h.env[h.current]
    requires forall s :: s in record.services ==> s in h.running
    ensures h.current in h.images
    ensures var h' := WithImages(h, c, record.services, image);
            IsStaged(before, h', c, record) && Consistent(h') && h'.journal == Absent
  {
    ImagesFit(h, c, Pin(h.images[h.current], record.services, image));
    hide RecordsFit;
  }

  lemma {:induction false} ImagesPinned(h: Host, c: Release, services: seq<Service>, image: Image)
    requires h.current in h.images
    ensures var h' := WithImages(h, c, services, image); var before := h.images[h.current];
            && h' == h.(images := h'.images) && c in h'.images && h'.images == h.images[c := h'.images[c]]
            && h'.images[c].Keys == before.Keys
            && forall s :: s in h'.images[c] ==> h'.images[c][s] == if s in services then image else before[s]
  {
  }

  lemma {:induction false} ImagesFit(h: Host, c: Release, pinned: map<Service, Image>)
    requires RecordsFit(h) && c !in h.images
    ensures RecordsFit(h.(images := h.images[c := pinned]))
  {
  }

  ghost predicate IsStaged(before: Host, h: Host, c: Release, record: Record) {
    && WellFormed(h) && Extends(before, h) && c in h.directories && record.previous == h.current
       && h.running == (if h.current in h.images then h.images[h.current] else map[])
    && AgreeOutside(h.images, c, h.current, record.services) && (forall s :: s in record.services ==> s in h.running)
    && h.env[c] == h.env[h.current]
  }

  lemma {:induction false} RecordingExtends(before: Host, h: Host, h': Host, c: Release, record: Record)
    requires IsStaged(before, h, c, record) && Consistent(h) && h.journal == Absent && h' == h.(records := h'.records)
    requires h'.records in {h.records, h.records[c := TornRecord], h.records[c := Whole(record)]}
    ensures IsStaged(before, h', c, record) && Consistent(h') && Extends(before, h') && h'.journal == Absent
  {
  }

  lemma {:induction false} JournalExtends(before: Host, h: Host, h': Host, c: Release, record: Record)
    requires IsStaged(before, h, c, record) && Consistent(h) && h.journal == Absent && c in h.records
             && h.records[c] == Whole(record)
    requires h' == h.(journal := h'.journal) && h'.journal in {Absent, Torn, Names(c)}
    ensures Consistent(h') && Extends(before, h')
    ensures h'.journal == Names(c) ==> Cutting(h', c, record)
  {
    if h'.journal == Names(c) {
      BeginsCutting(h', c, record);
    }
  }

  /** A release's images: the new one for `services`, the pinned one for every other service. */
  function Pin(images: map<Service, Image>, services: seq<Service>, image: Image): (r: map<Service, Image>)
    ensures r.Keys == images.Keys
  {
    map s | s in images :: if s in services then image else images[s]
  }

  /** Some services run their image from `images`, all others what they ran before. */
  ghost predicate UpTo(before: map<Service, Image>, running: map<Service, Image>, images: map<Service, Image>,
                       services: seq<Service>) {
    && running.Keys == before.Keys
    && (forall s :: s in running && s !in services ==> running[s] == before[s])
    && (forall s :: s in services && s in running && s in images ==> running[s] == images[s])
  }

  lemma {:induction false} OneMoreUp(before: map<Service, Image>, running: map<Service, Image>,
                                     images: map<Service, Image>,
                                     services: seq<Service>, i: nat)
    requires i < |services| && UpTo(before, running, images, services[..i]) && services[i] in running
             && services[i] in images
    ensures UpTo(before, running[services[i] := images[services[i]]], images, services[..i + 1])
  {
    assert services[..i + 1] == services[..i] + [services[i]];
  }

  class Deployment {
    var h: Host
    var fate: nat -> Fate
    var step: nat

    constructor (h: Host)
      ensures this.h == h
    {
      this.h, fate, step := h, _ => Proceed, 0;
    }

    /** The fate of the next step. */
    method Next() returns (f: Fate)
      modifies this`step
      ensures f == fate(old(step)) && step == old(step) + 1
    {
      f := fate(step);
      step := step + 1;
    }

    /** Rewrite the journal in place. */
    method SaveJournal(c: Release) returns (o: Outcome)
      modifies this`h, this`step
      ensures o in {Done, Raised, Crashed}
      ensures h == old(h).(journal := h.journal)
      ensures if o == Done then h.journal == Names(c) else h.journal in {old(h.journal), Torn}
      ensures Faultless(fate) ==> o == Done
      ensures Clear(fate, old(step), 2) ==> o == Done && step == old(step) + 2
      ensures Ran(fate, old(step), step, o)
      ensures o != Done ==> h.journal == if fate(old(step)) == Proceed then Torn else old(h.journal)
      ensures o == Done ==> step == old(step) + 2
    {
      var f := Next();
      if f != Proceed {
        return if f == Raise then Raised else Crashed;
      }
      h := h.(journal := Torn);
      f := Next();
      if f != Proceed {
        return if f == Raise then Raised else Crashed;
      }
      h := h.(journal := Names(c));
      o := Done;
    }

    /** Rewrite a release's record in place. */
    method SaveRecord(c: Release, record: Record) returns (o: Outcome)
      modifies this`h, this`step
      ensures o in {Done, Raised, Crashed}
      ensures h == old(h).(records := h.records)
      ensures if o == Done then h.records == old(h.records)[c := Whole(record)]
              else h.records == old(h.records) || h.records == old(h.records)[c := TornRecord]
      ensures Faultless(fate) ==> o == Done
      ensures Clear(fate, old(step), 2) ==> o == Done && step == old(step) + 2
      ensures Ran(fate, old(step), step, o)
      ensures o != Done
              ==> h.records == if fate(old(step)) == Proceed then old(h.records)[c := TornRecord] else old(h.records)
      ensures o == Done ==> step == old(step) + 2
    {
      var f := Next();
      if f != Proceed {
        return if f == Raise then Raised else Crashed;
      }
      h := h.(records := h.records[c := TornRecord]);
      f := Next();
      if f != Proceed {
        return if f == Raise then Raised else Crashed;
      }
      h := h.(records := h.records[c := Whole(record)]);
      o := Done;
    }

    /** Select a release through a temporary link and an atomic rename. */
    method Switch(target: Release) returns (o: Outcome)
      modifies this`h, this`step
      ensures o in {Done, Raised, Crashed}
      ensures h == old(h).(current := h.current, staleLink := h.staleLink)
      ensures h.current == if o == Done then target else old(h.current)
      ensures o == Done ==> !old(h.staleLink) && !h.staleLink
      ensures old(h.staleLink) ==> h == old(h)
      ensures o == Done ==> fate(old(step)) == Proceed && fate(old(step) + 1) == Proceed
      ensures h.staleLink <==> old(h.staleLink) || (o != Done && fate(old(step)) == Proceed)
      ensures !old(h.staleLink) && fate(old(step)) == Proceed && fate(old(step) + 1) == Crash ==> o == Crashed
      ensures Faultless(fate) ==> (o == Done <==> !old(h.staleLink))
      ensures old(h.staleLink) || Ran(fate, old(step), step, o)
      ensures old(h.staleLink) ==> o == Raised
      ensures o == Done ==> step == old(step) + 2
    {
      if h.staleLink {
        return Raised;
      }
      var f := Next();
      if f != Proceed {
        return if f == Raise then Raised else Crashed;
      }
      h := h.(staleLink := true);
      f := Next();
      if f != Proceed {
        return if f == Raise then Raised else Crashed;
      }
      h := h.(current := target, staleLink := false);
      o := Done;
    }

    /** Bring services up from a release's Compose files, one container at a time. */
    method Up(release: Release, services: seq<Service>) returns (o: Outcome)
      requires release in h.images && h.images[release].Keys == h.running.Keys
      requires forall s :: s in services ==> s in h.running
      modifies this`h, this`step
      ensures o in {Done, Raised, Crashed}
      ensures h == old(h).(running := h.running) && h.running.Keys == old(h.running).Keys
      ensures forall s :: s in h.running && s !in services ==> h.running[s] == old(h.running)[s]
      ensures o == Done ==> forall s :: s in services ==> h.running[s] == h.images[release][s]
      ensures Faultless(fate) ==> o == Done
      ensures Clear(fate, old(step), |services|) ==> o == Done && step == old(step) + |services|
      ensures Ran(fate, old(step), step, o)
      ensures o == Done ==> step == old(step) + |services|
    {
      ghost var before := h.running;
      for i := 0 to |services|
        invariant step == old(step) + i && h == old(h).(running := h.running)
        invariant Ran(fate, old(step), step, Done)
        invariant UpTo(before, h.running, h.images[release], services[..i])
      {
        hide Ran, UpTo;
        RanStep(fate, old(step), step);
        var f := Next();
        if f != Proceed {
          return if f == Raise then Raised else Crashed;
        }
        OneMoreUp(before, h.running, h.images[release], services, i);
        h := h.(running := h.running[services[i] := h.images[release][services[i]]]);
      }
      assert services[..|services|] == services;
      o := Done;
    }

    /** A check that changes nothing: health, continuity or intact environment. */
    method Check() returns (o: Outcome)
      modifies this`step
      ensures o in {Done, Raised, Crashed}
      ensures Faultless(fate) ==> o == Done
      ensures o == Done <==> fate(old(step)) == Proceed
      ensures step == old(step) + 1
      ensures Ran(fate, old(step), step, o)
    {
      var f := Next();
      o := match f case Proceed => Done case Raise => Raised case Crash => Crashed;
    }

    /** Health, continuity and an intact environment. */
    method CheckThrice() returns (o: Outcome)
      modifies this`step
      ensures o in {Done, Raised, Crashed} && Ran(fate, old(step), step, o)
      ensures Clear(fate, old(step), 3) ==> o == Done
      ensures o == Done ==> step == old(step) + 3
    {
      o := Check();
      if o != Done { return; }
      o := Check();
      if o != Done { return; }
      o := Check();
    }

    method RemoveJournal() returns (o: Outcome)
      modifies this`h, this`step
      ensures o in {Done, Raised, Crashed}
      ensures h == if o == Done then old(h).(journal := Absent) else old(h)
      ensures Faultless(fate) ==> o == Done
      ensures Ran(fate, old(step), step, o)
      ensures o == Done ==> step == old(step) + 1
    {
      o := Check();
      if o == Done {
        h := h.(journal := Absent);
      }
    }

    /** Bring one of a cutover's two releases up, then check health, continuity and the environment. */
    method BringUp(c: Release, record: Record, target: Release) returns (o: Outcome)
      requires Cutting(h, c, record) && target in {c, record.previous}
      modifies this`h, this`step
      ensures o in {Done, Raised, Crashed} && h == old(h).(running := h.running) && Cutting(h, c, record)
      ensures h.running.Keys == old(h).running.Keys && target in h.images
      ensures o == Done ==> h.running == h.images[target]
      ensures Faultless(fate) ==> o == Done
      ensures Clear(fate, old(step), |record.services| + 3) ==> o == Done && step == old(step) + |record.services| + 3
      ensures Ran(fate, old(step), step, o)
    {
      hide Cutting, WellFormed, Ran;
      ServicesKnown(h, c, record);
      o := Up(target, record.services);
      KeepsCutting(old(h), h, c, record);
      ghost var up := step;
      if o != Done { return; }
      AllRunning(h, c, record, target);
      o := CheckThrice();
      RanOn(fate, old(step), up, step, o);
    }

    /** Record how a cutover ended and drop the journal. */
    method Conclude(c: Release, record: Record, status: Status) returns (o: Outcome)
      requires Cutting(h, c, record) && h.current in h.images && h.running == h.images[h.current]
      modifies this`h, this`step
      ensures o in {Done, Raised, Crashed}
      ensures if o == Done
              then Consistent(h)
                && h == old(h).(records := old(h.records)[c := Whole(record.(status := status))], journal := Absent)
              else Cutting(h, c, record) && h == old(h).(records := h.records)
      ensures Faultless(fate) ==> o == Done
      ensures Ran(fate, old(step), step, o)
      ensures c in old(h.records) ==> c in h.records && h.records == old(h.records)[c := h.records[c]]
      ensures o == Done ==> step == old(step) + 3
    {
      hide Cutting, Consistent, WellFormed;
      ServicesKnown(h, c, record);
      o := SaveRecord(c, record.(status := status));
      KeepsCutting(old(h), h, c, record);
      if o != Done { return; }
      EndsConsistent(h, c, record);
      o := RemoveJournal();
    }

    /** The `try` block of a cutover. */
    method CutOver(c: Release, record: Record) returns (o: Outcome)
      requires Cutting(h, c, record) && h.current == record.previous
      modifies this`h, this`step
      ensures o in {Done, Raised, Crashed} && SameStage(old(h), h)
      ensures o == Done ==> Consistent(h) && h.journal == Absent && h.current == c && h.running == h.images[c]
      ensures o == Done ==> h.records == old(h.records)[c := Whole(record.(status := Active))] && !h.staleLink
      ensures o != Done ==> Cutting(h, c, record)
      ensures var n := |record.services| + 4;
              !old(h.staleLink) && Clear(fate, old(step), n) && fate(old(step) + n) == Crash
              ==> o == Crashed && h.staleLink
      ensures Faultless(fate) && !old(h.staleLink) ==> o == Done
      ensures old(h.staleLink) || Ran(fate, old(step), step, o)
      ensures h.staleLink && h.current != record.previous ==> old(h.staleLink)
      ensures c in old(h.records) ==> c in h.records && h.records == old(h.records)[c := h.records[c]]
    {
      hide Cutting, Consistent, WellFormed, Clear, Faultless, SameCutover, Ran;
      ClearSplits(fate, step, |record.services| + 3, 1);
      ClearSplits(fate, step + |record.services| + 3, 1, 0);
      o := BringUp(c, record, c);
      if o != Done { return; }
      ghost var at := step;
      o := SwitchOver(c, record);
      if !old(h.staleLink) {
        RanOn(fate, old(step), at, step, o);
      }
      if o != Done { return; }
      at := step;
      o := Conclude(c, record, Active);
      RanOn(fate, old(step), at, step, o);
    }

    /** Select the new release of a cutover; a crash inside the switch leaves the temporary link. */
    method SwitchOver(c: Release, record: Record) returns (o: Outcome)
      requires Cutting(h, c, record)
      modifies this`h, this`step
      ensures o in {Done, Raised, Crashed} && Cutting(h, c, record)
      ensures h == old(h).(current := h.current, staleLink := h.staleLink)
              && (o == Done ==> h.current == c && !h.staleLink)
      ensures !old(h.staleLink) && fate(old(step)) == Proceed && fate(old(step) + 1) == Crash
              ==> o == Crashed && h.staleLink
      ensures Faultless(fate) && !old(h.staleLink) ==> o == Done && !h.staleLink
      ensures old(h.staleLink) || Ran(fate, old(step), step, o)
      ensures if o == Done then !old(h.staleLink) else h.current == old(h.current)
    {
      hide Cutting, Consistent, WellFormed, SameCutover;
      ServicesKnown(h, c, record);
      o := Switch(c);
      KeepsCutting(old(h), h, c, record);
    }

    /** The exception handler: restore the previous images, then the link, then drop the journal. */
    method Restore(c: Release, record: Record) returns (o: Outcome)
      requires Cutting(h, c, record)
      modifies this`h, this`step
      ensures o in {Done, Raised, Crashed} && SameStage(old(h), h)
      ensures o == Done
              ==> Consistent(h) && h.journal == Absent && h.current == record.previous
                  && h.running == h.images[record.previous]
      ensures o == Done ==> h.records == old(h.records)[c := Whole(record.(status := RolledBackAfterFailure))]
      ensures o != Done ==> Cutting(h, c, record)
      ensures Faultless(fate) && !old(h.staleLink) ==> o == Done
      ensures (old(h.staleLink) && old(h.current) != record.previous) || Ran(fate, old(step), step, o)
      ensures o == Done ==> step == old(step) + |record.services| + if old(h.current) == record.previous then 5 else 7
    {
      hide Cutting, Consistent, WellFormed, Ran, Faultless;
      ServicesKnown(h, c, record);
      ghost var at := step;
      o := Check();
      if o != Done { return; }
      at := step;
      o := Up(record.previous, record.services);
      KeepsCutting(old(h), h, c, record);
      RanOn(fate, old(step), at, step, o);
      if o != Done { return; }
      AllRunning(h, c, record, record.previous);
      at := step;
      o := Check();
      RanOn(fate, old(step), at, step, o);
      if o != Done { return; }
      ghost var up := h;
      if h.current != record.previous {
        at := step;
        o := Switch(record.previous);
        if !up.staleLink {
          RanOn(fate, old(step), at, step, o);
        }
        KeepsCutting(up, h, c, record);
        if o != Done { return; }
      }
      at := step;
      o := Conclude(c, record, RolledBackAfterFailure);
      RanOn(fate, old(step), at, step, o);
    }

    /** The directory of a new release and in it a byte-for-byte copy of the environment, either of which may be the
        last thing done. */
    method CopyRelease(c: Release) returns (o: Outcome)
      requires Consistent(h) && h.journal == Absent && c !in h.directories
      modifies this`h, this`step
      ensures o in {Done, Raised, Crashed} && Consistent(h) && Extends(old(h), h)
      ensures h == old(h).(directories := h.directories, env := h.env)
      ensures fate(old(step)) == Proceed ==> c in h.directories
      ensures o == Done <==> Clear(fate, old(step), 2)
      ensures o == Done ==> step == old(step) + 2
      ensures o == Done ==> c !in h.images && c in h.env && h.current in h.env && h.env[c] == h.env[h.current]
      ensures Ran(fate, old(step), step, o)
    {
      hide Extends;
      DirectoryExtends(h, c);
      assert c !in h.env && c !in h.images;
      hide Consistent, WellFormed;
      o := Check();
      if o != Done { return; }
      h := WithDirectory(h, c);
      o := Check();
      if o != Done { return; }
      EnvironmentExtends(old(h), h, c);
      h := WithEnvironment(h, c);
    }

    /** Stage a release beside the running one. */
    method Stage(c: Release, record: Record, image: Image) returns (o: Outcome)
      requires Consistent(h) && h.journal == Absent && c !in h.directories && record.previous == h.current
      requires forall s :: s in record.services ==> s in h.running
      modifies this`h, this`step
      ensures o in {Done, Raised, Crashed} && Consistent(h) && Extends(old(h), h)
      ensures h == old(h).(directories := h.directories, env := h.env, images := h.images)
      ensures o == Done ==> IsStaged(old(h), h, c, record)
      ensures o == Done ==> c in h.images && h.images == old(h.images)[c := h.images[c]]
      ensures o == Done ==> h.images[c].Keys == old(h.images)[old(h.current)].Keys
      ensures o == Done
              ==> forall s :: s in h.images[c]
                    ==> h.images[c][s] == if s in record.services then image else old(h.images)[old(h.current)][s]
      ensures fate(old(step)) == Proceed ==> c in h.directories
      ensures o == Done <==> CanUpdateFrom(old(h)) && Clear(fate, old(step), STAGING - 4)
      ensures o == Done ==> step == old(step) + STAGING - 4
    {
      hide Consistent, WellFormed, Extends, CanUpdateFrom, IsStaged, Pin, Ran;
      o := CopyRelease(c);
      RecordsUnchanged(old(h), h);
      if o != Done { return; }
      o := Check();
      if o != Done { return; }
      if !CanUpdateFrom(h) {
        return Raised;
      }
      ImagesExtend(old(h), h, c, record, image);
      IsStagedExtends(old(h), WithImages(h, c, record.services, image), c, record);
      ImagesPinned(h, c, record.services, image);
      hide WithImages, Clear, Faultless;
      o := Check();
      if o != Done { return; }
      h := WithImages(h, c, record.services, image);
      o := Check();
    }

    /** Everything before the `try` block: stage the release, then write its record and the journal. */
    method Prepare(c: Release, record: Record, image: Image) returns (o: Outcome)
      requires Consistent(h) && h.journal == Absent && c !in h.directories && record.previous == h.current
      requires forall s :: s in record.services ==> s in h.running
      modifies this`h, this`step
      ensures o in {Done, Raised, Crashed}
      ensures Consistent(h) && Extends(old(h), h)
      ensures o == Done ==> CanUpdateFrom(old(h))
      ensures o == Done
              ==> Cutting(h, c, record) && c in h.images && h.images == old(h.images)[c := h.images[c]]
                  && h.images[c].Keys == old(h.images)[old(h.current)].Keys
      ensures o == Done
              ==> forall s :: s in h.images[c]
                    ==> h.images[c][s] == if s in record.services then image else old(h.images)[old(h.current)][s]
      ensures o == Done ==> h.records == old(h.records)[c := Whole(record)]
      ensures h.journal in {Absent, Torn} || o == Done
      ensures fate(old(step)) == Proceed ==> c in h.directories
      ensures fate(old(step)) == Proceed && fate(old(step) + 1) != Proceed ==> o != Done && h.journal == Absent
      ensures CanUpdateFrom(old(h)) && Clear(fate, old(step), STAGING) ==> o == Done && step == old(step) + STAGING
    {
      hide Consistent, Cutting, WellFormed, Extends, CanUpdateFrom, IsStaged;
      o := Stage(c, record, image);
      if o != Done { return; }
      ghost var staged := h;
      o := SaveRecord(c, record);
      RecordingExtends(old(h), staged, h, c, record);
      if o != Done { return; }
      ghost var recorded := h;
      o := SaveJournal(c);
      JournalExtends(old(h), recorded, h, c, record);
    }

    /** `update` with `apply`. `planned` says that the bundle passes every check made before anything is staged. */
    method Update(c: Release, services: seq<Service>, image: Image, planned: bool) returns (o: Outcome)
      requires Consistent(h) && forall s :: s in services ==> s in h.running
      modifies this`h, this`step
      ensures Consistent(h) && KeepsEnvironment(old(h), h) && h.running.Keys == old(h.running).Keys
      ensures o == Refused <==> old(h.journal) != Absent || !planned || c in old(h.directories)
      ensures o == Refused ==> h == old(h)
      ensures o != Refused && fate(old(step)) == Proceed ==> c in h.directories
      ensures o != Refused && fate(old(step)) == Proceed && fate(old(step) + 1) != Proceed
              ==> o != Done && Extends(old(h), h) && h.journal == Absent
      ensures o == Done ==> CanUpdateFrom(old(h))
      ensures o == Done
              ==> h.current == c && h.journal == Absent && c in h.images && h.running == h.images[c]
      ensures o == Done
              ==> forall s :: s in h.running ==> h.running[s] == if s in services then image else old(h.running)[s]
      ensures o == Done && old(h.current) in old(h.records)
              ==> old(h.records)[old(h.current)].Whole? && old(h.records)[old(h.current)].record.status == Active
      ensures Faultless(fate) && o != Refused && !old(h.staleLink)
              && (old(h.current) in old(h.records)
                  ==> old(h.records)[old(h.current)].Whole? && old(h.records)[old(h.current)].record.status == Active)
              ==> o == Done
      ensures o == Done
              ==> h.records == old(h.records)[c := Whole(Record(old(h.current), services, Active))] && !h.staleLink
      ensures o == Raised && h.journal == Absent ==> h.current == old(h.current) && h.running == old(h.running)
      ensures old(h.current) in old(h.images)
      ensures forall r :: r in old(h.images) ==> r in h.images && h.images[r] == old(h.images)[r]
      ensures old(h.journal) == Absent && h.journal.Names?
              ==> h.journal == Names(c) && c in h.records
                  && (h.records[c].Whole? ==> h.records[c].record.previous == old(h.current))
      ensures var n := STAGING + |services| + 4;
              o != Refused && CanUpdateFrom(old(h)) && !old(h.staleLink) && Clear(fate, old(step), n)
                && fate(old(step) + n) == Crash
              ==> o == Crashed && h.staleLink && h.journal == Names(c)
      ensures !old(h.staleLink) && o !in {Refused, Done} && CanUpdateFrom(old(h)) && Clear(fate, old(step), STAGING)
                && RaisesOnce(fate, old(step) + STAGING)
              ==> o == Raised && h.journal == Absent && h.current == old(h.current) && h.running == old(h.running)
                  && c in h.records && h.records[c] == Whole(Record(old(h.current), services, RolledBackAfterFailure))
    {
      hide *;
      StagingTakesSteps();
      FaultlessIsClear(fate, step, STAGING);
      UpdatableIs(h);
      RunningSelected(h);
      UpdateExtends(h, h, h);
      if h.journal != Absent || !planned || c in h.directories {
        return Refused;
      }
      var record := Record(h.current, services, Staged);
      ClearSplits(fate, step, STAGING, |services| + 4);
      o := Prepare(c, record, image);
      UpdateExtends(old(h), h, h);
      if o != Done { return; }
      ghost var prepared := h;
      o := CutOverOrRestore(c, record);
      UpdateExtends(old(h), prepared, h);
    }

    /** The `try` block with its handler. */
    method CutOverOrRestore(c: Release, record: Record) returns (o: Outcome)
      requires Cutting(h, c, record) && h.current == record.previous
      modifies this`h, this`step
      ensures o in {Done, Raised, Crashed} && SameStage(old(h), h) && Consistent(h) && h.current in h.images
      ensures o == Done ==> h.journal == Absent && h.current == c && h.running == h.images[c]
      ensures o == Done ==> h.records == old(h.records)[c := Whole(record.(status := Active))] && !h.staleLink
      ensures if h.journal == Absent
              then o == Done || (o == Raised && h.current == record.previous && h.running == h.images[h.current])
              else h.journal == Names(c) && c in h.records
                   && (h.records[c].Whole? ==> h.records[c].record.previous == record.previous)
      ensures var n := |record.services| + 4;
              !old(h.staleLink) && Clear(fate, old(step), n) && fate(old(step) + n) == Crash
              ==> o == Crashed && h.staleLink && h.journal == Names(c)
      ensures Faultless(fate) && !old(h.staleLink) ==> o == Done
      ensures !old(h.staleLink) && RaisesOnce(fate, old(step)) && o != Done
              ==> o == Raised && h.journal == Absent && h.current == record.previous && h.running == h.images[h.current]
                  && h.records == old(h.records)[c := Whole(record.(status := RolledBackAfterFailure))]
      ensures !old(h.staleLink) && step > old(step) ==> (o == Crashed <==> fate(step - 1) == Crash)
    {
      hide WellFormed, Ran, RaisesOnce;
      o := CutOver(c, record);
      ghost var at := step;
      if !old(h.staleLink) {
        CrashEnds(fate, old(step), step, o);
      }
      if o != Done {
        CuttingIsConsistent(h, c, record);
      }
      if o == Raised {
        var restored := Restore(c, record);
        if !old(h.staleLink) {
          CrashEnds(fate, at, step, restored);
          if RaisesOnce(fate, old(step)) {
            RaiseIsLast(fate, old(step), at, step, restored);
          }
        }
        if restored != Done {
          CuttingIsConsistent(h, c, record);
        }
        if restored == Crashed {
          o := Crashed;
        }
      }
      RunningSelected(h);
    }

    /** `rollback`: of the interrupted cutover if there is one, else of the active release. `intact` says that
        sources, configuration and projections are as the record left them. */
    method Rollback(intact: bool) returns (o: Outcome)
      requires Consistent(h)
      modifies this`h, this`step
      ensures Consistent(h)
              && h == old(h).(current := h.current, staleLink := h.staleLink, journal := h.journal,
                              running := h.running)
      ensures h.running.Keys == old(h.running).Keys
      ensures h.journal in if old(h.journal) == Absent then {Absent, Torn, Names(old(h.current))}
                           else if o == Done then {Absent} else {old(h.journal), Torn}
      ensures old(h.staleLink) ==> o != Done && h.staleLink
      ensures o == Refused
              <==> !intact || match old(h.journal)
                              case Absent => old(h.current) !in old(h.records)
                                || old(h.records)[old(h.current)].TornRecord?
                              case Torn => true
                              case Names(c) => c !in old(h.records) || old(h.records)[c].TornRecord?
      ensures var c := RollbackOf(old(h));
              && (o == Refused <==> !intact || !HasRecord(old(h), c))
              && (o == Refused ==> h == old(h))
              && (o == Done ==> HasRecord(old(h), c) && h.journal == Absent
                                && h.current == old(h.records)[c.value].record.previous
                                   && h.running == h.images[h.current])
              && (Faultless(fate) && intact && HasRecord(old(h), c) ==> (o == Done <==> !old(h.staleLink)))
    {
      var c := RollbackOf(h);
      if !intact || !HasRecord(h, c) {
        return Refused;
      }
      var record := h.records[c.value].record;
      ghost var before := h;
      hide Cutting, WellFormed;
      o := SaveJournal(c.value);
      if o != Done {
        TornIsConsistent(before, h);
        return;
      }
      ResumesCutting(before, h, c.value, record);
      CuttingIsConsistent(h, c.value, record);
      o := BringUp(c.value, record, record.previous);
      CuttingIsConsistent(h, c.value, record);
      if o != Done { return; }
      ghost var up := h;
      o := Switch(record.previous);
      KeepsCutting(up, h, c.value, record);
      CuttingIsConsistent(h, c.value, record);
      if o != Done { return; }
      EndsConsistent(h, c.value, record);
      o := RemoveJournal();
    }
  }

  datatype Command =
    | Apply(release: Release, services: seq<Service>, image: Image, planned: bool, fate: nat -> Fate)
    | Undo(intact: bool, fate: nat -> Fate)

  /** What a command may have done to the host: what it refuses, what it leaves when it completes, and that it completes
      when nothing fails. */
  ghost predicate Obeys(before: Host, command: Command, o: Outcome, after: Host) {
    && (o == Refused ==> after == before) && (o == Done ==> after.journal == Absent)
    && match command
       case Apply(release, services, image, planned, fate) =>
         && (o == Refused <==> before.journal != Absent || !planned || release in before.directories)
         && (o == Done ==> after.current == release && after.running.Keys == before.running.Keys
                           && forall s :: s in after.running
                                ==> after.running[s] == if s in services then image else before.running[s])
         && (Faultless(fate) && CanUpdateFrom(before) && !before.staleLink && o != Refused ==> o == Done)
       case Undo(intact, fate) =>
         var c := RollbackOf(before);
         && (o == Refused <==> !intact || !HasRecord(before, c))
         && (o == Done ==> HasRecord(before, c) && after.current == before.records[c.value].record.previous
                           && after.current in after.images && after.running == after.images[after.current])
         && (Faultless(fate) && o != Refused ==> (o == Done <==> !before.staleLink))
  }

  /** Over any run of deployments and rollbacks, each crashing or failing anywhere, the journal invariant holds, no
      environment file ever changes, and each command does to the host as it found it what it says. */
  method RunCommands(d: Deployment, commands: seq<Command>) returns (outcomes: seq<Outcome>, ghost hosts: seq<Host>)
    requires Consistent(d.h)
    requires forall k :: k in commands && k.Apply? ==> forall s :: s in k.services ==> s in d.h.running
    modifies d
    ensures Consistent(d.h) && KeepsEnvironment(old(d.h), d.h)
    ensures d.h.journal == Absent ==> d.h.running == d.h.images[d.h.current]
    ensures |outcomes| == |commands| && |hosts| == |commands| + 1
    ensures hosts[0] == old(d.h) && hosts[|commands|] == d.h
    ensures forall i :: 0 <= i < |commands| ==> Obeys(hosts[i], commands[i], outcomes[i], hosts[i + 1])
  {
    outcomes, hosts := [], [d.h];
    for i := 0 to |commands|
      invariant Consistent(d.h) && KeepsEnvironment(old(d.h), d.h) && d.h.running.Keys == old(d.h).running.Keys
      invariant |outcomes| == i && |hosts| == i + 1 && hosts[0] == old(d.h) && hosts[i] == d.h
      invariant forall j :: 0 <= j < i ==> Obeys(hosts[j], commands[j], outcomes[j], hosts[j + 1])
    {
      hide Obeys, Consistent;
      var o := RunCommand(d, commands[i]);
      outcomes, hosts := outcomes + [o], hosts + [d.h];
    }
    RunningSelected(d.h);
  }

  method RunCommand(d: Deployment, command: Command) returns (o: Outcome)
    requires Consistent(d.h)
    requires command.Apply? ==> forall s :: s in command.services ==> s in d.h.running
    modifies d
    ensures Consistent(d.h) && KeepsEnvironment(old(d.h), d.h) && d.h.running.Keys == old(d.h).running.Keys
    ensures Obeys(old(d.h), command, o, d.h)
  {
    hide Consistent, WellFormed;
    d.fate, d.step := command.fate, 0;
    match command {
      case Apply(release, services, image, planned, _) =>
        UpdatableIs(d.h);
        o := d.Update(release, services, image, planned);
      case Undo(intact, _) =>
        o := d.Rollback(intact);
    }
    RunningSelected(d.h);
    hide RollbackOf, HasRecord, CanUpdateFrom, Faultless;
  }

  /** A completed update is undone by a completed rollback: the release and all images are those from before, and with
      faultless steps it does complete. */
  method UpdateThenRollback(d: Deployment, c: Release, services: seq<Service>, image: Image, fate: nat -> Fate)
    returns (updated: bool, undone: bool)
    requires Consistent(d.h) && d.h.journal == Absent && c !in d.h.directories && c != d.h.current
    requires forall s :: s in services ==> s in d.h.running
    modifies d
    ensures undone
            ==> updated && d.h.journal == Absent && d.h.current == old(d.h.current) && d.h.running == old(d.h.running)
    ensures updated && Faultless(fate) ==> undone
  {
    hide Consistent, WellFormed, CanUpdateFrom;
    ghost var before := d.h;
    RunningSelected(d.h);
    var o := d.Update(c, services, image, true);
    updated, undone := o == Done, false;
    if updated {
      d.fate, d.step := fate, 0;
      o := d.Rollback(true);
      undone := o == Done;
    }
  }

  /** A cutover that crashed or failed half way, followed by rollbacks of which the last one completes, is as if it
      had never been tried: the release, its images and the journal are those from before. */
  method RecoverFromCutover(d: Deployment, c: Release, services: seq<Service>, image: Image, attempts: seq<nat -> Fate>)
    returns (interrupted: bool, recovered: bool)
    requires Consistent(d.h) && d.h.journal == Absent && forall s :: s in services ==> s in d.h.running
    modifies d
    ensures Consistent(d.h) && KeepsEnvironment(old(d.h), d.h)
    ensures recovered ==> d.h.journal == Absent && d.h.current == old(d.h).current && d.h.running == old(d.h).running
    ensures interrupted && attempts != [] && Faultless(attempts[|attempts| - 1]) && !recovered ==> NeedsOperator(d.h, c)
  {
    ghost var before := d.h;
    hide Consistent, WellFormed;
    RunningSelected(before);
    var o := d.Update(c, services, image, true);
    interrupted, recovered := d.h.journal != Absent, false;
    if !interrupted {
      return;
    }
    for i := 0 to |attempts|
      invariant Consistent(d.h) && KeepsEnvironment(before, d.h)
      invariant if recovered then Undone(before, d.h) else Interrupted(before, d.h, c)
      invariant i > 0 && Faultless(attempts[i - 1]) && !recovered ==> NeedsOperator(d.h, c)
    {
      if !recovered {
        d.fate, d.step := attempts[i], 0;
        o := d.Rollback(true);
        recovered := o == Done;
      }
    }
  }

  /** An update that crashes between making the temporary link and renaming it leaves an interrupted cutover that
      no number of rollbacks completes, however faultless: each finds the stale link and stops with the journal in
      place. */
  method StaleLinkStopsRecovery(d: Deployment, c: Release, services: seq<Service>, image: Image,
                                attempts: seq<nat -> Fate>)
    returns (outcomes: seq<Outcome>)
    requires Consistent(d.h) && d.h.journal == Absent && !d.h.staleLink && c !in d.h.directories && CanUpdateFrom(d.h)
    requires forall s :: s in services ==> s in d.h.running
    requires var n := STAGING + |services| + 4; Clear(d.fate, d.step, n) && d.fate(d.step + n) == Crash
    modifies d
    ensures |outcomes| == |attempts| && (forall o :: o in outcomes ==> o != Done)
    ensures d.h.staleLink && d.h.journal != Absent
  {
    hide Consistent, CanUpdateFrom;
    var o := d.Update(c, services, image, true);
    outcomes := [];
    for i := 0 to |attempts|
      invariant Consistent(d.h) && d.h.staleLink && d.h.journal != Absent
      invariant |outcomes| == i && forall o :: o in outcomes ==> o != Done
    {
      d.fate, d.step := attempts[i], 0;
      o := d.Rollback(true);
      outcomes := outcomes + [o];
    }
  }

  /** A staging that breaks off leaves its directory, and the same release is refused from then on. */
  method BrokenStagingBlocksRetry(d: Deployment, c: Release, services: seq<Service>, image: Image,
                                  attempts: seq<nat -> Fate>)
    returns (outcomes: seq<Outcome>)
    requires Consistent(d.h) && d.h.journal == Absent && c !in d.h.directories
    requires forall s :: s in services ==> s in d.h.running
    requires d.fate(d.step) == Proceed && d.fate(d.step + 1) != Proceed
    modifies d
    ensures |outcomes| == |attempts| && forall o :: o in outcomes ==> o == Refused
    ensures d.h.current == old(d.h.current) && d.h.running == old(d.h.running) && d.h.journal == Absent
  {
    hide Consistent;
    var o := d.Update(c, services, image, true);
    outcomes := [];
    for i := 0 to |attempts|
      invariant Consistent(d.h) && c in d.h.directories && d.h.running.Keys == old(d.h).running.Keys
      invariant |outcomes| == i && forall o :: o in outcomes ==> o == Refused
      invariant d.h.current == old(d.h.current) && d.h.running == old(d.h.running) && d.h.journal == Absent
    {
      d.fate, d.step := attempts[i], 0;
      o := d.Update(c, services, image, true);
      outcomes := outcomes + [o];
    }
  }

  /** What no rollback can undo by itself: a torn journal or record, or a temporary link left behind. */
  predicate NeedsOperator(h: Host, c: Release) {
    h.staleLink || h.journal == Torn || !HasRecord(h, Some(c))
  }

  predicate Undone(before: Host, h: Host) {
    h.journal == Absent && h.current == before.current && h.running == before.running
  }

  /** The journal of a cutover that began at `before`. */
  predicate Interrupted(before: Host, h: Host, c: Release) {
    && h.journal in {Torn, Names(c)}
    && (h.journal == Names(c) && HasRecord(h, Some(c)) ==> h.records[c].record.previous == before.current)
    && before.current in h.images && h.images[before.current] == before.running
  }

  lemma {:induction false} RunningSelected(h: Host)
    requires Consistent(h)
    ensures h.current in h.images && (h.journal == Absent ==> h.images[h.current] == h.running)
  {
  }

  /** `compose_files`: a recorded release must be recorded as active. */
  predicate CanUpdateFrom(h: Host) {
    h.current in h.records ==> h.records[h.current].Whole? && h.records[h.current].record.status == Active
  }

  lemma {:induction false} RecordsUnchanged(h: Host, h': Host)
    requires h'.current == h.current && h'.records == h.records
    ensures CanUpdateFrom(h') == CanUpdateFrom(h)
  {
  }

  lemma {:induction false} UpdateExtends(before: Host, h: Host, h': Host)
    ensures SameStage(h, h) && KeepsEnvironment(h, h)
    ensures (Extends(before, h) && SameStage(h, h')
             ==> && KeepsEnvironment(before, h') && h'.running.Keys == before.running.Keys
                 && before.directories <= h'.directories && h'.directories == h.directories && h'.images == h.images
                 && h.current == before.current && h.running == before.running && h.staleLink == before.staleLink
                 && forall r :: r in before.images ==> r in h'.images && h'.images[r] == before.images[r])
  {
  }

  lemma {:induction false} FaultlessIsClear(fate: nat -> Fate, from: nat, count: nat)
    ensures Faultless(fate) ==> Clear(fate, from, count)
  {
  }

  lemma {:induction false} UpdatableIs(h: Host)
    ensures CanUpdateFrom(h)
            <==> h.current in h.records ==> h.records[h.current].Whole? && h.records[h.current].record.status == Active
  {
  }

  lemma {:induction false} StagingTakesSteps()
    ensures STAGING > 4
  {
  }

  lemma {:induction false} ClearSplits(fate: nat -> Fate, from: nat, first: nat, rest: nat)
    requires first > 0
    ensures Clear(fate, from, first + rest) <==> Clear(fate, from, first) && Clear(fate, from + first, rest)
    ensures Clear(fate, from, first) ==> fate(from) == Proceed
  {
  }

  lemma {:induction false} IsStagedExtends(before: Host, h: Host, c: Release, record: Record)
    requires IsStaged(before, h, c, record)
    ensures Extends(before, h) && c in h.directories
  {
  }

  /** The release a rollback undoes; a torn journal cannot be read. */
  function RollbackOf(h: Host): Option<Release> {
    match h.journal
    case Absent => Some(h.current)
    case Torn => None
    case Names(c) => Some(c)
  }

  predicate HasRecord(h: Host, c: Option<Release>) {
    c.Some? && c.value in h.records && h.records[c.value].Whole?
  }

  lemma {:induction false} TornIsConsistent(h: Host, h': Host)
    requires Consistent(h) && h' == h.(journal := h'.journal) && h'.journal in {h.journal, Torn}
    ensures Consistent(h')
  {
  }

  lemma {:induction false} BeginsCutting(h: Host, c: Release, record: Record)
    requires WellFormed(h) && h.journal == Names(c) && c in h.records && h.records[c] == Whole(record)
    requires h.current == record.previous && h.running == h.images[h.current]
    ensures Cutting(h, c, record)
  {
  }

  lemma {:induction false} ResumesCutting(h: Host, h': Host, c: Release, record: Record)
    requires Consistent(h) && h.journal in {Absent, Names(c)} && (h.journal == Absent ==> c == h.current)
    requires c in h.records && h.records[c] == Whole(record) && h' == h.(journal := Names(c))
    ensures Cutting(h', c, record)
  {
  }
}
