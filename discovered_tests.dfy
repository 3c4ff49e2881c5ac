/** The process-wide registry that generated module initialisers fill with descriptors. */
module Registry {
  import opened Descriptor

  /** The static `DiscoveredTests` class; one object of this class stands for its static state. */
  class DiscoveredTests {
    /** `_allTests`, in registration order. */
    var tests: seq<DiscoveredTest>

    constructor ()
      ensures tests == []
    {
      tests := [];
    }

    /** `All`: a read-only view of the registered descriptors, in registration order. */
    function All(): seq<DiscoveredTest>
      reads this
    {
      tests
    }

    /** `Register`: appends the descriptor; earlier entries keep their values and order,
        and a descriptor whose uid is already registered is kept as well. */
    method Register(test: DiscoveredTest)
      modifies this
      ensures tests == old(tests) + [test]
      ensures |All()| == |old(All())| + 1
      ensures All()[..|old(All())|] == old(All()) && All()[|old(All())|] == test
    {
      tests := tests + [test];
    }
  }

  /** Registering a descriptor whose uid is already present keeps both entries. */
  method RegisterDuplicate(registry: DiscoveredTests, a: DiscoveredTest, b: DiscoveredTest)
    requires a.uid == b.uid
    modifies registry
    ensures registry.All() == old(registry.All()) + [a, b]
  {
    registry.Register(a);
    registry.Register(b);
  }
}
