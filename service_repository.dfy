/**
 * `LocalServiceRepository` (`src/services/serviceRepository.ts`): the list of
 * services the salon offers. The persisted list is the field `services`; each
 * method reads it, changes it and writes it back, so a method here updates the
 * field in place. Ids and timestamps are parameters.
 */
module ServiceRepository {
  import opened Wrappers
  import opened Types
  import opened Text
  import opened Seqs

  /** The position of the first service with id `id`, or -1 (`findIndex`). */
  function IndexOfService(services: seq<Service>, id: string): int {
    FindIndex(services, (s: Service) => s.id == id)
  }

  /** `services.find(s => s.id === id) || null`: the first service with that id. */
  function FindService(services: seq<Service>, id: string): (r: Option<Service>)
    ensures r.None? <==> forall s :: s in services ==> s.id != id
    ensures r.Some? ==> r.value in services && r.value.id == id
    ensures r.Some? ==> exists i :: 0 <= i < |services| && services[i] == r.value &&
                                    forall j :: 0 <= j < i ==> services[j].id != id
  {
    var k := IndexOfService(services, id);
    if k < 0 then None else Some(services[k])
  }

  /** The service `create` appends: fresh id, trimmed name, one timestamp for both stamps. */
  function NewService(data: CreateServiceRequest, id: string, timestamp: string): Service {
    Service(id, Trim(data.name), data.durationMinutes, timestamp, timestamp)
  }

  /**
   * The entry `update` writes: a given duration replaces the old one; a given
   * name replaces the old one once trimmed, unless it trims to nothing.
   */
  function UpdatedService(current: Service, data: UpdateServiceRequest, timestamp: string): Service {
    var name := if data.name.Some? && Trim(data.name.value) != [] then Trim(data.name.value) else current.name;
    var duration := if data.durationMinutes.Some? then data.durationMinutes.value else current.durationMinutes;
    current.(name := name, durationMinutes := duration, updatedAt := timestamp)
  }

  /**
   * `update` keeps the id and creation stamp; the name is the trimmed new one
   * when that is not blank and the old one otherwise, so a stored name that is
   * not blank never becomes blank.
   */
  lemma UpdatedServiceFields(current: Service, data: UpdateServiceRequest, timestamp: string)
    ensures var r := UpdatedService(current, data, timestamp);
      && r.id == current.id && r.createdAt == current.createdAt && r.updatedAt == timestamp
      && (data.name.None? ==> r.name == current.name)
      && (data.name.Some? && !IsBlank(data.name.value) ==> r.name == Trim(data.name.value))
      && (data.name.Some? && IsBlank(data.name.value) ==> r.name == current.name)
      && (!IsBlank(current.name) && current.name == Trim(current.name) ==> !IsBlank(r.name) && r.name == Trim(r.name))
      && (data.durationMinutes.None? ==> r.durationMinutes == current.durationMinutes)
      && (data.durationMinutes.Some? ==> r.durationMinutes == data.durationMinutes.value)
  {
    if data.name.Some? && Trim(data.name.value) != [] {
      TrimIdempotent(data.name.value);
    }
  }

  /** `services.filter(s => s.id !== id)`. */
  function WithoutService(services: seq<Service>, id: string): (r: seq<Service>)
    ensures forall s :: s in r <==> s in services && s.id != id
  {
    Filter(services, (s: Service) => s.id != id)
  }

  class ServiceStore {
    /** The persisted service list, in insertion order. */
    var services: seq<Service>

    constructor()
      ensures services == []
    {
      services := [];
    }

    method GetAll() returns (r: seq<Service>)
      ensures r == services
    {
      r := services;
    }

    method GetById(id: string) returns (r: Option<Service>)
      ensures r == FindService(services, id)
    {
      r := FindService(services, id);
    }

    /** Appends exactly one service, built from the request, at the end. */
    method Create(data: CreateServiceRequest, id: string, timestamp: string) returns (s: Service)
      modifies this
      ensures s == NewService(data, id, timestamp)
      ensures services == old(services) + [s]
    {
      s := NewService(data, id, timestamp);
      services := services + [s];
    }

    /**
     * Replaces the first entry with id `id` and nothing else; with no such
     * entry it answers `None` and writes nothing.
     */
    method Update(id: string, data: UpdateServiceRequest, timestamp: string) returns (r: Option<Service>)
      modifies this
      ensures IndexOfService(old(services), id) == -1 ==> r.None? && services == old(services)
      ensures var k := IndexOfService(old(services), id);
        k != -1 ==>
          && r == Some(UpdatedService(old(services)[k], data, timestamp))
          && |services| == |old(services)| && services[k] == r.value
          && forall i :: 0 <= i < |services| && i != k ==> services[i] == old(services)[i]
    {
      var index := IndexOfService(services, id);
      if index == -1 {
        return None;
      }
      var updated := UpdatedService(services[index], data, timestamp);
      services := services[index := updated];
      r := Some(updated);
    }

    /** Removes every entry with id `id`; answers whether there was one. */
    method Delete(id: string) returns (deleted: bool)
      modifies this
      ensures deleted <==> exists s :: s in old(services) && s.id == id
      ensures services == WithoutService(old(services), id)
    {
      var filtered := WithoutService(services, id);
      if |filtered| == |services| {
        return false;
      }
      services := filtered;
      deleted := true;
    }
  }
}
