/**
 * The restore of a portable backup: `bell/recovery.py:204-281`. How each part ends is given by the world: it goes
 * through, or some operation of it raises, or the process ends in the middle of it. Where that happens is open.
 * Directories and temporary files are not modelled.
 */
module PortableRestore {
  import opened Wrappers

  /** Regular files by relative path. */
  type Files = map<string, string>

  /** An archive that validated; its settings already name this appliance's storage. `legacy` is schema 1. */
  datatype Archive = Archive(config: Files, sounds: Files, logo: Files, legacy: bool)

  datatype Step = Went | Raised | Died

  /** `Broken` is an exception out of the rollback itself. */
  datatype Result = Rejected | Restored | WentBack | Broken | Dead

  /** Writing the marker: it may raise before or after the file exists, and the process may end there. */
  datatype Marking = Marks | Fails | FailsWritten | Dies

  /** How a restore that is not refused ends. */
  function Ending(marking: Marking, attempt: Step, back: Step): Result {
    match marking
    case Fails => Rejected
    case FailsWritten => Broken
    case Dies => Dead
    case Marks =>
      match attempt
      case Went => Restored
      case Died => Dead
      case Raised => match back case Went => WentBack case Raised => Broken case Died => Dead
  }

  /** Restored only if nothing failed, back to the old only if the rollback went through after a failure. */
  lemma EndingExactly(marking: Marking, attempt: Step, back: Step)
    ensures var ending := Ending(marking, attempt, back);
            && (ending == Restored <==> marking == Marks && attempt == Went)
            && (ending == WentBack <==> marking == Marks && attempt == Raised && back == Went)
            && (ending == Rejected <==> marking == Fails)
            && (ending == Dead <==>
                  marking == Dies || (marking == Marks && (attempt == Died || (attempt == Raised && back == Died))))
  {
  }

  const LOGO := "logo.png"

  /** What `_replace_library` leaves: the source, and of a legacy restore also the files that are not WAV. */
  function Replaced(files: Files, source: Files, legacy: bool, isWav: string -> bool): Files {
    (map p | p in files && p !in source && legacy && !isWav(p) :: files[p]) + source
  }

  /** The copies made when `rest` is still to do. */
  function Copied(files: Files, source: Files, rest: set<string>): Files {
    files + (source - rest)
  }

  lemma CopyStep(files: Files, source: Files, rest: set<string>, p: string)
    requires rest <= source.Keys && p in rest
    ensures Copied(files, source, rest)[p := source[p]] == Copied(files, source, rest - {p})
  {
    assert source - (rest - {p}) == (source - rest)[p := source[p]];
  }

  lemma CopyEnds(files: Files, source: Files)
    ensures Copied(files, source, source.Keys) == files && Copied(files, source, {}) == files + source
  {
    assert source - {} == source;
  }

  /** The removals made when `rest` is still to look at. */
  function Thinned(files: Files, source: Files, legacy: bool, isWav: string -> bool, rest: set<string>): Files {
    map p | p in files && (p in rest || p in source || (legacy && !isWav(p))) :: files[p]
  }

  lemma ThinStep(files: Files, source: Files, legacy: bool, isWav: string -> bool, rest: set<string>, p: string)
    requires p in rest
    ensures Thinned(files, source, legacy, isWav, rest - {p}) ==
              if p !in source && (!legacy || isWav(p)) then Thinned(files, source, legacy, isWav, rest) - {p}
              else Thinned(files, source, legacy, isWav, rest)
  {
  }

  lemma ThinEnds(files: Files, source: Files, legacy: bool, isWav: string -> bool)
    ensures Thinned(files, source, legacy, isWav, files.Keys) == files
    ensures Thinned(files, source, legacy, isWav, {}) + source == Replaced(files, source, legacy, isWav)
    ensures !legacy ==> Replaced(files, source, legacy, isWav) == source
  {
  }

  /** One operation of a part that is to end as `fate`: it goes through, or is the one that ends the part. */
  method Operation(fate: Step) returns (s: Step)
    ensures s == Went || s == fate
  {
    var here: bool := *;
    s := if here then fate else Went;
  }

  class Library {
    var files: Files

    constructor (saved: Files)
      ensures files == saved
    {
      files := saved;
    }

    /** `shutil.copy2` straight onto the target. */
    method CopyOver(p: string, content: string, fate: Step) returns (s: Step)
      modifies this
      ensures s == Went || s == fate
      ensures s == Went ==> files == old(files)[p := content]
    {
      s := Operation(fate);
      if s == Went {
        files := files[p := content];
      } else if * {
        var part: string := *;
        files := files[p := part];
      }
    }

    /** Through a temporary file and a rename. */
    method CopyBeside(p: string, content: string, fate: Step) returns (s: Step)
      modifies this
      ensures s == Went || s == fate
      ensures s == Went ==> files == old(files)[p := content]
      ensures files == old(files) || files == old(files)[p := content]
    {
      s := Operation(fate);
      if s == Went {
        files := files[p := content];
      } else if * {
        files := files[p := content];
      }
    }

    method Unlink(p: string, fate: Step) returns (s: Step)
      modifies this
      ensures s == Went || s == fate
      ensures s == Went ==> files == old(files) - {p}
      ensures files == old(files) || files == old(files) - {p}
    {
      s := Operation(fate);
      if s == Went {
        files := files - {p};
      } else if * {
        files := files - {p};
      }
    }

    /** The configuration: every file of the archive over what is there. */
    method Overlay(source: Files, fate: Step) returns (s: Step)
      modifies this
      ensures s == Went || s == fate
      ensures s == Went ==> files == old(files) + source
    {
      var rest := source.Keys;
      s := Went;
      CopyEnds(files, source);
      while rest != {} && s == Went
        invariant rest <= source.Keys
        invariant s == Went || s == fate
        invariant s == Went ==> files == Copied(old(files), source, rest)
        decreases |rest|
      {
        var p :| p in rest;
        CopyStep(old(files), source, rest, p);
        s := CopyOver(p, source[p], fate);
        rest := rest - {p};
      }
    }

    /** The files that are not in the source go; of a legacy restore, only WAV files. */
    method RemoveOthers(source: Files, legacy: bool, isWav: string -> bool, fate: Step) returns (s: Step)
      modifies this
      ensures s == Went || s == fate
      ensures s == Went ==> files == Thinned(old(files), source, legacy, isWav, {})
    {
      var rest := files.Keys;
      s := Went;
      ThinEnds(files, source, legacy, isWav);
      while rest != {} && s == Went
        invariant s == Went || s == fate
        invariant s == Went ==> files == Thinned(old(files), source, legacy, isWav, rest)
        decreases |rest|
      {
        var p :| p in rest;
        ThinStep(old(files), source, legacy, isWav, rest, p);
        if p !in source && (!legacy || isWav(p)) {
          s := Unlink(p, fate);
        }
        rest := rest - {p};
      }
    }

    method CopyAll(source: Files, fate: Step) returns (s: Step)
      modifies this
      ensures s == Went || s == fate
      ensures s == Went ==> files == old(files) + source
    {
      var rest := source.Keys;
      s := Went;
      CopyEnds(files, source);
      while rest != {} && s == Went
        invariant rest <= source.Keys
        invariant s == Went || s == fate
        invariant s == Went ==> files == Copied(old(files), source, rest)
        decreases |rest|
      {
        var p :| p in rest;
        CopyStep(old(files), source, rest, p);
        s := CopyBeside(p, source[p], fate);
        rest := rest - {p};
      }
    }

    /** `_replace_library`. */
    method Replace(source: Files, legacy: bool, isWav: string -> bool, fate: Step) returns (s: Step)
      modifies this
      ensures s == Went || s == fate
      ensures s == Went ==> files == Replaced(old(files), source, legacy, isWav)
      ensures s == Went && !legacy ==> files == source
    {
      s := Operation(fate);             // the listing refuses links
      if s != Went { return; }
      ThinEnds(files, source, legacy, isWav);
      s := RemoveOthers(source, legacy, isWav, fate);
      if s == Went {
        s := CopyAll(source, fate);
      }
    }
  }

  /** The three file sets at one moment. */
  datatype Content = Content(config: Files, sounds: Files, branding: Files)

  /** Wholly the archive's: config overlaid, sounds replaced, the logo set or removed. */
  function Wanted(before: Content, a: Archive, isWav: string -> bool): Content {
    Content(before.config + a.config, Replaced(before.sounds, a.sounds, a.legacy, isWav),
            if LOGO in a.logo then before.branding[LOGO := a.logo[LOGO]] else before.branding - {LOGO})
  }

  /**
   * The restored content, file by file. Config: the archive's files over the old ones. Sounds: exactly the archive's,
   * and of a legacy restore also the old files that are not WAV. Branding: only the logo changes.
   */
  lemma WantedExactly(before: Content, a: Archive, isWav: string -> bool, p: string)
    ensures At(Wanted(before, a, isWav).config, p) == if p in a.config then At(a.config, p) else At(before.config, p)
    ensures At(Wanted(before, a, isWav).sounds, p)
         == if p in a.sounds then At(a.sounds, p)
            else if a.legacy && !isWav(p) then At(before.sounds, p) else None
    ensures At(Wanted(before, a, isWav).branding, p)
         == if p == "logo.png" then At(a.logo, p) else At(before.branding, p)
  {
  }

  function At(files: Files, p: string): Option<string> {
    if p in files then Some(files[p]) else None
  }

  class Site {
    const config: Library
    const sounds: Library
    const branding: Library
    var pending: bool           // `.restore-incomplete`

    constructor (saved: Content, interrupted: bool)
      ensures Valid() && Now() == saved && pending == interrupted
      ensures fresh(config) && fresh(sounds) && fresh(branding)
    {
      config := new Library(saved.config);
      sounds := new Library(saved.sounds);
      branding := new Library(saved.branding);
      pending := interrupted;
    }

    ghost predicate Valid() {
      config != sounds && config != branding && sounds != branding
    }

    function Now(): Content
      reads config, sounds, branding
    {
      Content(config.files, sounds.files, branding.files)
    }

    /** The archive's files, in the order of the source. */
    method Apply(a: Archive, isWav: string -> bool, fate: Step) returns (s: Step)
      requires Valid()
      modifies config, sounds, branding
      ensures s == Went || s == fate
      ensures s == Went ==> Now() == Wanted(old(Now()), a, isWav)
    {
      s := config.Overlay(a.config, fate);
      if s != Went { return; }
      s := sounds.Replace(a.sounds, a.legacy, isWav, fate);
      if s != Went { return; }
      if LOGO in a.logo {
        s := branding.CopyOver(LOGO, a.logo[LOGO], fate);
      } else {
        s := branding.Unlink(LOGO, fate);
      }
    }

    /** The copies made before the first change, put back; whatever the failed attempt left. */
    method GoBack(saved: Content, isWav: string -> bool, fate: Step) returns (s: Step)
      requires Valid()
      modifies config, sounds, branding
      ensures s == Went || s == fate
      ensures s == Went ==> Now() == saved
    {
      s := config.Replace(saved.config, false, isWav, fate);
      if s != Went { return; }
      s := sounds.Replace(saved.sounds, false, isWav, fate);
      if s != Went { return; }
      s := branding.Replace(saved.branding, false, isWav, fate);
    }

    /** `pending.unlink()`, the last operation of a part: it ends the part as `fate`. */
    method Unmark(fate: Step)
      modifies `pending
      ensures fate == Went ==> !pending
      ensures fate == Raised ==> pending == old(pending)
    {
      var gone: bool := *;
      if fate == Went || (fate == Died && gone) {
        pending := false;
      }
    }

    /**
     * `restore_portable_backup`; `valid` stands for the archive checks and the copies made before the marker. How it
     * ends is decided by the fates of its parts, and by nothing else.
     */
    method Restore(a: Archive, valid: bool, isWav: string -> bool, marking: Marking, attempt: Step, back: Step)
      returns (result: Result)
      requires Valid()
      modifies this, config, sounds, branding
      ensures result == if old(pending) || !valid then Rejected else Ending(marking, attempt, back)
      ensures result == Rejected ==> Now() == old(Now()) && pending == old(pending)
      ensures result == Restored ==> !pending && Now() == Wanted(old(Now()), a, isWav)
      ensures result == WentBack ==> !pending && Now() == old(Now())
      ensures result == Broken ==> pending
      // without the marker: all old or all new, however the call ended
      ensures !pending ==> Now() == old(Now()) || Now() == Wanted(old(Now()), a, isWav)
    {
      if pending || !valid || marking == Fails {
        return Rejected;
      }
      var saved := Now();
      if marking == Dies {
        var written: bool := *;
        pending := written;
        return Dead;
      }
      pending := true;
      if marking == FailsWritten {
        return Broken;
      }
      Try(a, isWav, attempt);
      if attempt == Went {
        return Restored;
      } else if attempt == Died {
        return Dead;
      }
      Undo(saved, isWav, back);
      result := match back case Went => WentBack case Raised => Broken case Died => Dead;
    }

    /** The body of the `try`: the files, the check, the reload, and last the marker. */
    method Try(a: Archive, isWav: string -> bool, fate: Step)
      requires Valid() && pending
      modifies `pending, config, sounds, branding
      ensures fate == Went ==> !pending
      ensures fate == Raised ==> pending
      ensures !pending ==> Now() == Wanted(old(Now()), a, isWav)
    {
      var s := Apply(a, isWav, fate);
      if s != Went { return; }
      s := Operation(fate);       // `load_config` and the reload
      if s != Went { return; }
      Unmark(fate);
    }

    /** The handler: the copies, the reload of the previous configuration, and last the marker. */
    method Undo(saved: Content, isWav: string -> bool, fate: Step)
      requires Valid() && pending
      modifies `pending, config, sounds, branding
      ensures fate == Went ==> !pending
      ensures fate == Raised ==> pending
      ensures !pending ==> Now() == saved
    {
      var s := GoBack(saved, isWav, fate);
      if s != Went { return; }
      s := Operation(fate);
      if s != Went { return; }
      Unmark(fate);
    }
  }
}
