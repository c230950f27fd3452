/** The disk and the log, with the durable effects the run is made of. Each effect happens whole or not
    at all; `alive == false` means the process died before it, which is also what dying after the effect
    before it looks like. A process that is not `mortal` never dies. */
module Workspaces {
  import opened Wrappers
  import opened Protocols
  import opened AuditLogs
  import opened Worlds

  /** How writing a new file once can end. */
  datatype Writing = FileCreated | FileExists | WriterDied

  class Workspace {
    const mortal: bool
    const audit: AuditLog<Event>
    var out: Option<Folder>
    var independence: Option<Folder>
    var review: Option<Folder>
    var submission: Option<Folder>
    var acceptance: Option<Content>
    ghost var wire: seq<Service>

    constructor (audit: AuditLog<Event>, mortal: bool)
      requires audit.Unbroken() && audit.Events() == []
      ensures Valid() && this.audit == audit && this.mortal == mortal
      ensures Now() == World([], [], None, None, None, None, None)
    {
      this.audit, this.mortal := audit, mortal;
      out, independence, review, submission, acceptance := None, None, None, None, None;
      wire := [];
    }

    ghost predicate Valid()
      reads this, audit
    {
      audit.Unbroken()
    }

    ghost function Now(): World
      reads this, audit
      requires Valid()
    {
      World(audit.Events(), wire, out, independence, review, submission, acceptance)
    }

    /** `AuditLog.append`, flushed to disk. */
    method Log(e: Event) returns (alive: bool)
      requires Valid()
      modifies audit
      ensures Valid()
      ensures Now() == if alive then old(Now()).(log := old(Now()).log + [e]) else old(Now())
      ensures !mortal ==> alive
    {
      var dead := Dies(mortal);
      if dead {
        return false;
      }
      var r := audit.Append(e);
      return true;
    }

    method MakeResultFolder() returns (alive: bool)
      requires Valid() && out.None?
      modifies this`out
      ensures Valid() && Now() == old(Now()).(out := if alive then Some(map[]) else None)
      ensures !mortal ==> alive
    {
      var dead := Dies(mortal);
      if dead {
        return false;
      }
      out := Some(map[]);
      return true;
    }

    /** `write_once`, in the result folder: a file that exists is never replaced. */
    method WriteOnce(path: Path, c: Content) returns (r: Writing)
      requires Valid() && out.Some?
      modifies this`out
      ensures Valid() && out.Some?
      ensures r == FileCreated ==>
                path !in old(Now()).out.value && Now() == old(Now()).(out := Some(old(Now()).out.value[path := c]))
      ensures r != FileCreated ==> Now() == old(Now())
      ensures r == FileExists ==> path in old(Now()).out.value
      ensures !mortal ==> r != WriterDied
    {
      var dead := Dies(mortal);
      if dead {
        return WriterDied;
      }
      if path in out.value {
        return FileExists;
      }
      out := Some(out.value[path := c]);
      return FileCreated;
    }

    /** Written whole or not at all, replacing what was there. */
    method Store(path: Path, c: Content) returns (alive: bool)
      requires Valid() && out.Some?
      modifies this`out
      ensures Valid() && out.Some?
      ensures Now() == if alive then old(Now()).(out := Some(old(Now()).out.value[path := c])) else old(Now())
      ensures !mortal ==> alive
    {
      var dead := Dies(mortal);
      if dead {
        return false;
      }
      out := Some(out.value[path := c]);
      return true;
    }

    // -- the folders of the later phases -------------------------------------------------------------

    method StoreDeclaration(f: Folder) returns (alive: bool)
      requires Valid()
      modifies this`independence
      ensures Valid() && Now() == if alive then old(Now()).(independence := Some(f)) else old(Now())
      ensures !mortal ==> alive
    {
      var dead := Dies(mortal);
      if dead {
        return false;
      }
      independence := Some(f);
      return true;
    }

    method StoreReview(f: Folder) returns (alive: bool)
      requires Valid()
      modifies this`review
      ensures Valid() && Now() == if alive then old(Now()).(review := Some(f)) else old(Now())
      ensures !mortal ==> alive
    {
      var dead := Dies(mortal);
      if dead {
        return false;
      }
      review := Some(f);
      return true;
    }

    method StoreSubmission(f: Folder) returns (alive: bool)
      requires Valid()
      modifies this`submission
      ensures Valid() && Now() == if alive then old(Now()).(submission := Some(f)) else old(Now())
      ensures !mortal ==> alive
    {
      var dead := Dies(mortal);
      if dead {
        return false;
      }
      submission := Some(f);
      return true;
    }

    method StoreAcceptance(c: Content) returns (alive: bool)
      requires Valid() && acceptance.None?
      modifies this`acceptance
      ensures Valid() && Now() == if alive then old(Now()).(acceptance := Some(c)) else old(Now())
      ensures !mortal ==> alive
    {
      var dead := Dies(mortal);
      if dead {
        return false;
      }
      acceptance := Some(c);
      return true;
    }

    /** One request leaves the process. */
    ghost method Send(s: Service)
      requires Valid()
      modifies this`wire
      ensures Valid() && Now() == old(Now()).(wire := old(wire) + [s])
    {
      wire := wire + [s];
    }
  }
}
