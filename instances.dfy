/**
 * The static table of Braintree instances, keyed by client token, that getInstance
 * consults and reset clears.
 */
module Instances {
  import opened Types
  import opened Listeners
  import opened Client

  class InstanceRegistry {
    /** sInstances */
    var instances: map<string, Braintree>

    /** Every stored instance is a well-formed facade. */
    ghost predicate Valid()
      reads this, instances.Values
    {
      forall t :: t in instances ==> instances[t].Valid()
    }

    /** The table as the class is loaded: empty. */
    constructor ()
      ensures Valid()
      ensures instances == map[]
    {
      instances := map[];
    }

    /** getInstance: the instance already stored for the token, or a new one that is stored
        under it; no other entry changes. */
    method GetInstance(clientToken: string) returns (b: Braintree)
      requires Valid()
      modifies this`instances
      ensures Valid() && b.Valid()
      ensures clientToken in old(instances) ==> b == old(instances)[clientToken] && instances == old(instances)
      ensures clientToken !in old(instances) ==>
        && fresh(b)
        && instances == old(instances)[clientToken := b]
        && b.Registry() == NoListeners && b.queue == [] && !b.locked
        && b.cache == None && b.delivered == []
      ensures clientToken in instances && instances[clientToken] == b
    {
      if clientToken in instances {
        b := instances[clientToken];
      } else {
        b := new Braintree();
        instances := instances[clientToken := b];
      }
    }

    /** reset: forget every stored instance. */
    method Reset()
      modifies this`instances
      ensures Valid()
      ensures instances == map[]
    {
      instances := map[];
    }
  }
}
