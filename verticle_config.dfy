/** The verticle component configuration: a main, a worker flag and a
    multi-threaded flag, with one coupling rule: turning `worker` off also
    turns `multiThreaded` off, while turning `multiThreaded` on checks
    nothing. The name and network held by the shared component-configuration
    base class are not part of this model. */
module VerticleConfiguration {
  import opened Common
  import ContextBuilder

  datatype ComponentType = Module | Verticle

  class DefaultVerticleConfig {
    var main: Option<string>
    var worker: bool
    var multiThreaded: bool

    /** Only a worker may be multi-threaded. */
    predicate Coherent()
      reads this
    {
      multiThreaded ==> worker
    }

    constructor ()
      ensures main == None && !worker && !multiThreaded
      ensures Coherent()
    {
      main := None;
      worker := false;
      multiThreaded := false;
    }

    constructor WithMain(main: string)
      ensures this.main == Some(main) && !worker && !multiThreaded
      ensures Coherent()
    {
      this.main := Some(main);
      worker := false;
      multiThreaded := false;
    }

    /** `getType()`: whatever the fields hold. */
    function GetType(): (t: ComponentType)
      reads this
      ensures t == Verticle
    {
      Verticle
    }

    /** The component kind a context builder reads from this configuration. */
    function Kind(): (k: ContextBuilder.ComponentKind)
      reads this
      requires main.Some?
      ensures k.VerticleKind? && k.main == main.value
      ensures k.worker == worker && k.multiThreaded == multiThreaded
    {
      ContextBuilder.VerticleKind(main.value, worker, multiThreaded)
    }

    method SetMain(v: Option<string>)
      modifies this
      ensures main == v && worker == old(worker) && multiThreaded == old(multiThreaded)
    {
      main := v;
    }

    /** `setWorker`: `false` also clears `multiThreaded`; `true` leaves it.
        Either way the configuration ends coherent if it was, and `false`
        makes it coherent whatever it was. */
    method SetWorker(isWorker: bool)
      modifies this
      ensures worker == isWorker && main == old(main)
      ensures !isWorker ==> !multiThreaded
      ensures isWorker ==> multiThreaded == old(multiThreaded)
      ensures old(Coherent()) ==> Coherent()
      ensures !isWorker ==> Coherent()
    {
      worker := isWorker;
      if !worker {
        multiThreaded := false;
      }
    }

    /** `setMultiThreaded`: sets the flag whatever `worker` is, so a
        non-worker can be made multi-threaded. */
    method SetMultiThreaded(isMultiThreaded: bool)
      modifies this
      ensures multiThreaded == isMultiThreaded && worker == old(worker) && main == old(main)
      ensures Coherent() <==> (isMultiThreaded ==> worker)
    {
      multiThreaded := isMultiThreaded;
    }
  }
}
