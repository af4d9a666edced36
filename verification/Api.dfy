/** The Kubernetes API as the controller sees it: atomic calls, each of which may fail. */
module Api {
  import opened Options
  import opened Resources

  datatype ApiError = AlreadyExists | NotFound | Transient | Rejected

  /** Errors worth retrying; `Rejected` stands for every error the classifier calls permanent. */
  predicate IsRetryable(e: ApiError) {
    e.Transient?
  }

  /** An operator error: its cause, and whether the caller should retry. */
  datatype RbacError = RbacError(retryable: bool, cause: ApiError)

  function Classified(e: ApiError): RbacError {
    RbacError(IsRetryable(e), e)
  }

  /** The server's state. Once the resource is no longer live, `stored` is its last version. */
  datatype Cluster = Cluster(stored: Resource, live: bool, objects: Objects)

  /** A status update: stores the status alone, or nothing at all. */
  function WriteStatus(c: Cluster, st: Status, fault: Option<ApiError>): Cluster {
    if c.live && fault.None? then c.(stored := c.stored.(status := st)) else c
  }

  /** How an update answers. */
  function WriteAnswer(c: Cluster, fault: Option<ApiError>): Option<ApiError> {
    if fault.None? && !c.live then Some(NotFound) else fault
  }

  /** A metadata and spec update. Removing the only finalizer of a resource being deleted ends it. */
  function WriteMeta(c: Cluster, spec: Spec, finalizer: bool, fault: Option<ApiError>): Cluster {
    if !c.live || fault.Some? then c
    else
      c.(stored := c.stored.(spec := spec, finalizer := finalizer),
         live := finalizer || !c.stored.deleting)
  }

  // ----- What the server has answered -----

  datatype Call = Getting | Listing | Creating | Deleting | Updating | UpdatingStatus

  datatype Answer = Answer(call: Call, error: Option<ApiError>)

  /** An error that says more than that the object is there already, or gone already. */
  predicate Faulty(a: Answer) {
    && a.error.Some?
    && (a.call == Creating ==> a.error != Some(AlreadyExists))
    && (a.call != Creating && a.call != Listing ==> a.error != Some(NotFound))
  }

  /** The operator's error for a faulty answer: one of a list call is always worth retrying. */
  function Blame(a: Answer): RbacError
    requires a.error.Some?
  {
    if a.call == Listing then RbacError(true, a.error.value) else Classified(a.error.value)
  }

  /** An answer given after `before`. */
  ghost predicate Told(a: Answer, before: seq<Answer>, after: seq<Answer>) {
    exists i :: |before| <= i < |after| && after[i] == a
  }

  /** No answer after `before` is faulty. */
  ghost predicate Smooth(before: seq<Answer>, after: seq<Answer>) {
    before <= after && forall i | |before| <= i < |after| :: !Faulty(after[i])
  }

  /** An operation fails exactly at the first faulty answer to one of its calls, and reports that one. */
  ghost predicate Accounted(before: seq<Answer>, after: seq<Answer>, err: Option<RbacError>) {
    match err
    case None => Smooth(before, after)
    case Some(e) =>
      && |before| < |after| && Smooth(before, after[..|after| - 1])
      && Faulty(after[|after| - 1]) && e == Blame(after[|after| - 1])
  }

  class ApiServer {
    var stored: Resource
    var live: bool
    var objects: Objects
    ghost var answers: seq<Answer>

    constructor (c: Cluster)
      ensures State() == c && answers == []
    {
      stored, live, objects, answers := c.stored, c.live, c.objects, [];
    }

    function State(): Cluster
      reads this`stored, this`live, this`objects
    {
      Cluster(stored, live, objects)
    }

    /** Any failure the network or the server may produce. */
    method Weather() returns (fault: Option<ApiError>)
    {
      fault := *;
    }

    method Get() returns (e: Option<ApiError>)
      modifies this`answers
      ensures answers == old(answers) + [Answer(Getting, e)]
      ensures e.None? ==> live
      ensures e == Some(NotFound) ==> !live
    {
      e := Weather();
      if !live && e.None? {
        e := Some(NotFound);
      } else if live && e == Some(NotFound) {
        e := Some(Transient);
      }
      answers := answers + [Answer(Getting, e)];
    }

    method Create(key: Key, obj: RbacObject) returns (e: Option<ApiError>)
      modifies this`objects, this`answers
      ensures answers == old(answers) + [Answer(Creating, e)]
      ensures e.None? ==> key !in old(objects) && objects == old(objects)[key := obj]
      ensures e.Some? ==> objects == old(objects)
      ensures e == Some(AlreadyExists) ==> key in old(objects)
    {
      e := Weather();
      if e.None? && key in objects {
        e := Some(AlreadyExists);
      } else if e == Some(AlreadyExists) && key !in objects {
        e := Some(Transient);
      } else if e.None? {
        objects := objects[key := obj];
      }
      answers := answers + [Answer(Creating, e)];
    }

    method Delete(key: Key) returns (e: Option<ApiError>)
      modifies this`objects, this`answers
      ensures answers == old(answers) + [Answer(Deleting, e)]
      ensures e.None? ==> objects == old(objects) - {key}
      ensures e.Some? ==> objects == old(objects)
      ensures e == Some(NotFound) ==> key !in old(objects)
    {
      e := Weather();
      if key !in objects {
        e := if e.None? then Some(NotFound) else e;
      } else if e == Some(NotFound) {
        e := Some(Transient);
      } else if e.None? {
        objects := objects - {key};
      }
      answers := answers + [Answer(Deleting, e)];
    }

    /** Lists the objects of a kind that carry the labels, in no particular order. */
    method List(kind: Kind, selector: Labels) returns (items: seq<Key>, e: Option<ApiError>)
      modifies this`answers
      ensures answers == old(answers) + [Answer(Listing, e)]
      ensures e.None? ==>
                forall k :: k in items <==> k in objects && k.kind == kind && Matches(selector, objects[k].labels)
    {
      items := [];
      e := Weather();
      answers := answers + [Answer(Listing, e)];
      if e.Some? {
        return;
      }
      var selected := set k | k in objects && k.kind == kind && Matches(selector, objects[k].labels);
      var rest := selected;
      while rest != {}
        invariant rest <= selected
        invariant forall k :: k in items <==> k in selected - rest
        decreases rest
      {
        var k :| k in rest;
        items := items + [k];
        rest := rest - {k};
      }
    }

    /** The failure of an update, apart from there being nothing to update. */
    method UpdateWeather() returns (fault: Option<ApiError>)
      ensures fault != Some(NotFound)
    {
      fault := Weather();
      if fault == Some(NotFound) {
        fault := if live then Some(Transient) else None;
      }
    }

    method UpdateStatus(bg: Breakglass) returns (e: Option<ApiError>, ghost fault: Option<ApiError>)
      modifies this`stored, this`answers
      ensures answers == old(answers) + [Answer(UpdatingStatus, e)]
      ensures State() == WriteStatus(old(State()), bg.status, fault)
      ensures e == WriteAnswer(old(State()), fault) && fault != Some(NotFound)
    {
      e := UpdateWeather();
      fault := e;
      if e.None? && live {
        stored := stored.(status := bg.status);
      } else if e.None? {
        e := Some(NotFound);
      }
      answers := answers + [Answer(UpdatingStatus, e)];
    }

    method Update(bg: Breakglass) returns (e: Option<ApiError>, ghost fault: Option<ApiError>)
      modifies this`stored, this`live, this`answers
      ensures answers == old(answers) + [Answer(Updating, e)]
      ensures State() == WriteMeta(old(State()), bg.spec, bg.finalizer, fault)
      ensures e == WriteAnswer(old(State()), fault) && fault != Some(NotFound)
    {
      e := UpdateWeather();
      fault := e;
      if e.None? && live {
        stored := stored.(spec := bg.spec, finalizer := bg.finalizer);
        live := bg.finalizer || !stored.deleting;
      } else if e.None? {
        e := Some(NotFound);
      }
      answers := answers + [Answer(Updating, e)];
    }
  }
}
