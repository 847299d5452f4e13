/**
 * The Builder example: a computer builder whose chained `build_*` calls each
 * set one part, and whose `build` assembles the computer from all six.
 */
module BuilderPattern {

  import opened Wrappers

  /** The assembled computer; every part is the value the builder was given. */
  datatype Computer = Computer(
    case_: string, motherboard: string, cpu: string,
    memory: string, storage: string, gpu: string)

  /**
   * The builder. Its constructor sets no part: each part is an attribute that
   * only exists once its `build_*` method has run, so each is an Option here.
   */
  class ComputerBuilder {
    var case_: Option<string>
    var motherboard: Option<string>
    var cpu: Option<string>
    var memory: Option<string>
    var storage: Option<string>
    var gpu: Option<string>

    /** True when every part has been set. */
    predicate Complete()
      reads this
    {
      case_.Some? && motherboard.Some? && cpu.Some? && memory.Some? && storage.Some? && gpu.Some?
    }

    /** The first unset part in the order `build` reads them. */
    function FirstMissing(): string
      reads this
      requires !Complete()
    {
      if case_.None? then "case"
      else if motherboard.None? then "motherboard"
      else if cpu.None? then "cpu"
      else if memory.None? then "memory"
      else if storage.None? then "storage"
      else "gpu"
    }

    constructor ()
      ensures case_ == None && motherboard == None && cpu == None
      ensures memory == None && storage == None && gpu == None
    {
      case_, motherboard, cpu := None, None, None;
      memory, storage, gpu := None, None, None;
    }

    method BuildCase(c: string) returns (b: ComputerBuilder)
      modifies this
      ensures b == this && case_ == Some(c)
      ensures motherboard == old(motherboard) && cpu == old(cpu) && memory == old(memory)
      ensures storage == old(storage) && gpu == old(gpu)
    {
      case_ := Some(c);
      return this;
    }

    method BuildMotherboard(m: string) returns (b: ComputerBuilder)
      modifies this
      ensures b == this && motherboard == Some(m)
      ensures case_ == old(case_) && cpu == old(cpu) && memory == old(memory)
      ensures storage == old(storage) && gpu == old(gpu)
    {
      motherboard := Some(m);
      return this;
    }

    method BuildCpu(c: string) returns (b: ComputerBuilder)
      modifies this
      ensures b == this && cpu == Some(c)
      ensures case_ == old(case_) && motherboard == old(motherboard) && memory == old(memory)
      ensures storage == old(storage) && gpu == old(gpu)
    {
      cpu := Some(c);
      return this;
    }

    method BuildMemory(m: string) returns (b: ComputerBuilder)
      modifies this
      ensures b == this && memory == Some(m)
      ensures case_ == old(case_) && motherboard == old(motherboard) && cpu == old(cpu)
      ensures storage == old(storage) && gpu == old(gpu)
    {
      memory := Some(m);
      return this;
    }

    method BuildStorage(s: string) returns (b: ComputerBuilder)
      modifies this
      ensures b == this && storage == Some(s)
      ensures case_ == old(case_) && motherboard == old(motherboard) && cpu == old(cpu)
      ensures memory == old(memory) && gpu == old(gpu)
    {
      storage := Some(s);
      return this;
    }

    method BuildGpu(g: string) returns (b: ComputerBuilder)
      modifies this
      ensures b == this && gpu == Some(g)
      ensures case_ == old(case_) && motherboard == old(motherboard) && cpu == old(cpu)
      ensures memory == old(memory) && storage == old(storage)
    {
      gpu := Some(g);
      return this;
    }

    /**
     * Copies the six parts into a computer. Reading a part that was never set
     * raises AttributeError; the builder is not changed either way.
     */
    method Build() returns (r: Result<Computer>)
      ensures r.Success? <==> Complete()
      ensures r.Success? ==> r.value == Computer(case_.value, motherboard.value, cpu.value,
                                                 memory.value, storage.value, gpu.value)
      ensures r.Failure? ==> r.error.kind == "AttributeError"
      ensures r.Failure? ==> r.error.message == "'ComputerBuilder' object has no attribute '" + FirstMissing() + "'"
    {
      if !Complete() {
        return Failure(PyError("AttributeError", "'ComputerBuilder' object has no attribute '" + FirstMissing() + "'"));
      }
      r := Success(Computer(case_.value, motherboard.value, cpu.value, memory.value, storage.value, gpu.value));
    }
  }

  /** The demo's chain of six `build_*` calls and `build` yields the configured computer. */
  method Demo() returns (r: Result<Computer>)
    ensures r == Success(Computer("ATX Mid Tower", "MSI B450 Tomahawk", "AMD Ryzen 5 3600",
                                  "16GB DDR4 RAM", "1TB SSD", "NVIDIA GeForce RTX 3060"))
  {
    var builder := new ComputerBuilder();
    var b := builder.BuildCase("ATX Mid Tower");
    b := b.BuildMotherboard("MSI B450 Tomahawk");
    b := b.BuildCpu("AMD Ryzen 5 3600");
    b := b.BuildMemory("16GB DDR4 RAM");
    b := b.BuildStorage("1TB SSD");
    b := b.BuildGpu("NVIDIA GeForce RTX 3060");
    r := b.Build();
  }

  /** A builder on which one part was never set cannot build: here the gpu is missing. */
  method MissingPartFails() returns (r: Result<Computer>)
    ensures r == Failure(PyError("AttributeError", "'ComputerBuilder' object has no attribute 'gpu'"))
  {
    var builder := new ComputerBuilder();
    var b := builder.BuildCase("ATX Mid Tower");
    b := b.BuildMotherboard("MSI B450 Tomahawk");
    b := b.BuildCpu("AMD Ryzen 5 3600");
    b := b.BuildMemory("16GB DDR4 RAM");
    b := b.BuildStorage("1TB SSD");
    r := b.Build();
  }
}
