/**
 * The registry store: an in-memory map from service id to service record.
 * Records are values here; a write replaces the whole record stored under
 * its id. The reader/writer lock of the original is not modelled: every
 * operation runs to completion before the next one starts.
 */
module Repository {
  import opened Wrappers
  import opened Domain

  /** The store's two sentinel errors. */
  datatype RepoError = ErrServiceNotFound | ErrServiceAlreadyExists

  function ErrorMessage(e: RepoError): string
  {
    match e
    case ErrServiceNotFound => "service not found"
    case ErrServiceAlreadyExists => "service already exists"
  }

  /** Every record is stored under its own id. */
  ghost predicate KeyedById(m: map<string, Service>)
  {
    forall k :: k in m ==> m[k].id == k
  }

  class MemoryRepository {
    var services: map<string, Service>

    ghost predicate Valid()
      reads this
    {
      KeyedById(services)
    }

    /** A new repository holds no service. */
    constructor ()
      ensures Valid() && services == map[]
    {
      services := map[];
    }

    /**
     * Stores `service` under its id. An id that is already present is refused
     * with ErrServiceAlreadyExists and the store is left as it was.
     */
    method Create(service: Service) returns (err: Option<RepoError>)
      requires Valid()
      modifies this
      ensures Valid()
      ensures service.id in old(services) ==> err == Some(ErrServiceAlreadyExists) && services == old(services)
      ensures service.id !in old(services) ==> err == None && services == old(services)[service.id := service]
    {
      if service.id in services {
        return Some(ErrServiceAlreadyExists);
      }
      services := services[service.id := service];
      err := None;
    }

    /** The record stored under `id`, or ErrServiceNotFound. */
    method GetByID(id: string) returns (r: Result<Service, RepoError>)
      ensures id in services ==> r == Success(services[id])
      ensures id !in services ==> r == Failure(ErrServiceNotFound)
    {
      if id !in services {
        return Failure(ErrServiceNotFound);
      }
      r := Success(services[id]);
    }

    /**
     * Every stored record exactly once, in no particular order: the result
     * has one element per key, each element is the record stored under its
     * id, and no id appears twice.
     */
    method GetAll() returns (r: seq<Service>)
      requires Valid()
      ensures |r| == |services|
      ensures forall i :: 0 <= i < |r| ==> r[i].id in services && services[r[i].id] == r[i]
      ensures forall i, j :: 0 <= i < j < |r| ==> r[i].id != r[j].id
    {
      r := [];
      var pending := services.Keys;
      while pending != {}
        invariant pending <= services.Keys
        invariant |r| + |pending| == |services.Keys|
        invariant forall i :: 0 <= i < |r| ==> r[i].id in services && services[r[i].id] == r[i]
        invariant forall i :: 0 <= i < |r| ==> r[i].id !in pending
        invariant forall i, j :: 0 <= i < j < |r| ==> r[i].id != r[j].id
        decreases |pending|
      {
        var id :| id in pending;
        r := r + [services[id]];
        pending := pending - {id};
      }
    }

    /**
     * Replaces the whole record stored under `service.id`. An id that is not
     * present is refused with ErrServiceNotFound and nothing changes.
     */
    method Update(service: Service) returns (err: Option<RepoError>)
      requires Valid()
      modifies this
      ensures Valid()
      ensures service.id !in old(services) ==> err == Some(ErrServiceNotFound) && services == old(services)
      ensures service.id in old(services) ==> err == None && services == old(services)[service.id := service]
    {
      if service.id !in services {
        return Some(ErrServiceNotFound);
      }
      services := services[service.id := service];
      err := None;
    }

    /** Removes the record stored under `id`, or reports ErrServiceNotFound and changes nothing. */
    method Delete(id: string) returns (err: Option<RepoError>)
      requires Valid()
      modifies this
      ensures Valid()
      ensures id !in old(services) ==> err == Some(ErrServiceNotFound) && services == old(services)
      ensures id in old(services) ==> err == None && services == old(services) - {id}
    {
      if id !in services {
        return Some(ErrServiceNotFound);
      }
      services := services - {id};
      err := None;
    }

    /** Whether a record is stored under `id`. */
    method Exists(id: string) returns (b: bool)
      ensures b <==> id in services
    {
      b := id in services;
    }
  }

  /**
   * Creating a record, deleting it and creating it again all succeed, and
   * the record is present at the end; a second Create without the Delete
   * is refused.
   */
  method DeleteAndRecreate(service: Service) returns (first: Option<RepoError>, deleted: Option<RepoError>,
                                                      again: Option<RepoError>, duplicate: Option<RepoError>,
                                                      present: bool)
    ensures first == None && deleted == None && again == None
    ensures duplicate == Some(ErrServiceAlreadyExists)
    ensures present
  {
    var repo := new MemoryRepository();
    first := repo.Create(service);
    deleted := repo.Delete(service.id);
    var gone := repo.Exists(service.id);
    assert !gone;
    again := repo.Create(service);
    duplicate := repo.Create(service);
    present := repo.Exists(service.id);
  }
}
