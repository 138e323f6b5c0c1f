/** The ahead-of-time method compiler: its fixed stage list and the
    scheduling of static type initializers when a method is finished. */
module AotMethodCompilers {
  import opened Metadata
  import opened Pipelines
  import opened Vm

  /** The stages of the ahead-of-time pipeline, in order. */
  const AotStages: seq<Stage> := [
    Decoding, InstructionLogger,
    BasicBlockBuilder, InstructionLogger,
    OperandDetermination, InstructionLogger,
    CILTransformation, InstructionLogger,
    StackLayout,
    PlatformStub,
    LoopAwareBlockOrder, InstructionLogger,
    CodeGeneration
  ]

  /** The stages after which the instruction stream is logged. */
  const LoggedStages: set<Stage> :=
    {Decoding, BasicBlockBuilder, OperandDetermination, CILTransformation, LoopAwareBlockOrder}

  /** The stages other than the instruction logger, in their order. */
  function WithoutLoggers(stages: seq<Stage>): (r: seq<Stage>)
    ensures InstructionLogger !in r
    ensures |r| <= |stages|
  {
    if stages == [] then []
    else if stages[0] == InstructionLogger then WithoutLoggers(stages[1..])
    else [stages[0]] + WithoutLoggers(stages[1..])
  }

  /** Removing the loggers keeps every other stage that was there and adds
      none. */
  lemma {:induction false} WithoutLoggersKeepsOtherStages(stages: seq<Stage>, s: Stage)
    requires s != InstructionLogger
    ensures s in WithoutLoggers(stages) <==> s in stages
  {
    if stages != [] {
      WithoutLoggersKeepsOtherStages(stages[1..], s);
      assert stages == [stages[0]] + stages[1..];
    }
  }

  /** Removing the loggers from a concatenation removes them from each part. */
  lemma {:induction false} WithoutLoggersDistributes(a: seq<Stage>, b: seq<Stage>)
    ensures WithoutLoggers(a + b) == WithoutLoggers(a) + WithoutLoggers(b)
  {
    if a == [] {
      assert a + b == b;
    } else {
      assert (a + b)[1..] == a[1..] + b;
      WithoutLoggersDistributes(a[1..], b);
    }
  }

  // The stage list in three parts, filtered one part at a time.
  const FrontStages: seq<Stage> := [Decoding, InstructionLogger, BasicBlockBuilder, InstructionLogger]
  const MiddleStages: seq<Stage> := [OperandDetermination, InstructionLogger, CILTransformation, InstructionLogger]
  const BackStages: seq<Stage> := [StackLayout, PlatformStub, LoopAwareBlockOrder, InstructionLogger, CodeGeneration]

  lemma FrontWithoutLoggers()
    ensures WithoutLoggers(FrontStages) == [Decoding, BasicBlockBuilder]
  {
    assert FrontStages[1..] == [InstructionLogger, BasicBlockBuilder, InstructionLogger];
    assert FrontStages[1..][1..] == [BasicBlockBuilder, InstructionLogger];
    assert FrontStages[1..][1..][1..] == [InstructionLogger];
  }

  lemma MiddleWithoutLoggers()
    ensures WithoutLoggers(MiddleStages) == [OperandDetermination, CILTransformation]
  {
    assert MiddleStages[1..] == [InstructionLogger, CILTransformation, InstructionLogger];
    assert MiddleStages[1..][1..] == [CILTransformation, InstructionLogger];
    assert MiddleStages[1..][1..][1..] == [InstructionLogger];
  }

  lemma BackWithoutLoggers()
    ensures WithoutLoggers(BackStages) == [StackLayout, PlatformStub, LoopAwareBlockOrder, CodeGeneration]
  {
    assert BackStages[1..] == [PlatformStub, LoopAwareBlockOrder, InstructionLogger, CodeGeneration];
    assert BackStages[1..][1..] == [LoopAwareBlockOrder, InstructionLogger, CodeGeneration];
    assert BackStages[1..][1..][1..] == [InstructionLogger, CodeGeneration];
    assert BackStages[1..][1..][1..][1..] == [CodeGeneration];
  }

  /** Decoding comes first and code generation last; the transforming stages
      run in the order decode, build blocks, determine operands, lower CIL,
      lay out the stack, insert platform stubs, order blocks, generate code,
      each exactly once. */
  lemma AotStageOrder()
    ensures AotStages[0] == Decoding && AotStages[|AotStages| - 1] == CodeGeneration
    ensures WithoutLoggers(AotStages) == [Decoding, BasicBlockBuilder, OperandDetermination,
      CILTransformation, StackLayout, PlatformStub, LoopAwareBlockOrder, CodeGeneration]
  {
    AotStagesInParts();
    WithoutLoggersDistributes(FrontStages + MiddleStages, BackStages);
    WithoutLoggersDistributes(FrontStages, MiddleStages);
    PartsWithoutLoggers();
  }

  lemma AotStagesInParts()
    ensures AotStages == FrontStages + MiddleStages + BackStages
  {
    var whole := FrontStages + MiddleStages + BackStages;
    assert |whole| == |AotStages|;
    forall i | 0 <= i < |AotStages|
      ensures AotStages[i] == whole[i]
    {
    }
  }

  lemma PartsWithoutLoggers()
    ensures WithoutLoggers(FrontStages) + WithoutLoggers(MiddleStages) + WithoutLoggers(BackStages)
      == [Decoding, BasicBlockBuilder, OperandDetermination,
          CILTransformation, StackLayout, PlatformStub, LoopAwareBlockOrder, CodeGeneration]
  {
    var front, middle, back := WithoutLoggers(FrontStages), WithoutLoggers(MiddleStages), WithoutLoggers(BackStages);
    FrontWithoutLoggers();
    MiddleWithoutLoggers();
    BackWithoutLoggers();
    MainStagesInParts();
  }

  lemma MainStagesInParts()
    ensures [Decoding, BasicBlockBuilder] + [OperandDetermination, CILTransformation]
        + [StackLayout, PlatformStub, LoopAwareBlockOrder, CodeGeneration]
      == [Decoding, BasicBlockBuilder, OperandDetermination,
          CILTransformation, StackLayout, PlatformStub, LoopAwareBlockOrder, CodeGeneration]
  {
  }

  /** An instruction logger runs right after each of the logged stages. */
  lemma LoggerFollowsLoggedStages()
    ensures forall i :: 0 <= i < |AotStages| - 1 && AotStages[i] in LoggedStages ==> AotStages[i + 1] == InstructionLogger
    ensures forall i :: 0 <= i < |AotStages| && AotStages[i] == InstructionLogger ==> i > 0 && AotStages[i - 1] in LoggedStages
  {
  }

  const TypeInitializerAttributes: MethodAttributes := SpecialName | RTSpecialName | Static

  /** A method is a static type initializer when it carries all of the
      SpecialName, RTSpecialName and Static flags and is named ".cctor". */
  predicate IsTypeInitializer(m: RuntimeMethod): (r: bool)
    ensures r <==>
      && m.attributes & SpecialName != 0
      && m.attributes & RTSpecialName != 0
      && m.attributes & Static != 0
      && m.name == ".cctor"
  {
    m.attributes & TypeInitializerAttributes == TypeInitializerAttributes && m.name == ".cctor"
  }

  /** A ".cctor" that lacks any one of the three flags is not a type
      initializer, whatever other flags it has. */
  lemma MissingFlagIsNotTypeInitializer(m: RuntimeMethod, flag: MethodAttributes)
    requires flag in {SpecialName, RTSpecialName, Static}
    requires m.attributes & flag == 0
    ensures !IsTypeInitializer(m)
  {
  }

  /** Receives the type initializers to run eagerly. */
  class TypeInitializerScheduler {
    var scheduled: seq<RuntimeMethod>

    constructor ()
      ensures scheduled == []
    {
      scheduled := [];
    }

    method Schedule(m: RuntimeMethod)
      modifies this
      ensures scheduled == old(scheduled) + [m]
    {
      scheduled := scheduled + [m];
    }
  }

  /** The ahead-of-time assembly compiler, reduced to the scheduler stage
      that its pipeline provides. */
  class AotCompiler {
    const typeInitializerScheduler: TypeInitializerScheduler

    constructor (scheduler: TypeInitializerScheduler)
      ensures typeInitializerScheduler == scheduler
    {
      typeInitializerScheduler := scheduler;
    }
  }

  /** What the end of a method compilation does, in order. */
  datatype CompileEvent = ScheduledTypeInitializer(m: RuntimeMethod) | BaseEndCompile

  class AotMethodCompiler {
    const aotCompiler: AotCompiler
    const compiledMethod: RuntimeMethod
    const pipeline: CompilerPipeline
    var events: seq<CompileEvent>

    /** Builds the pipeline of the ahead-of-time compiler; the pipeline
        starts empty. */
    constructor (compiler: AotCompiler, m: RuntimeMethod)
      ensures aotCompiler == compiler && compiledMethod == m
      ensures fresh(pipeline) && pipeline.stages == AotStages
      ensures events == []
    {
      var p := new CompilerPipeline();
      p.AddRange(AotStages);
      aotCompiler := compiler;
      compiledMethod := m;
      pipeline := p;
      events := [];
    }

    /** Schedules the method when it is a type initializer, then finishes
        the compilation as every method compiler does. */
    method EndCompile()
      modifies this, aotCompiler.typeInitializerScheduler
      ensures aotCompiler.typeInitializerScheduler.scheduled
        == old(aotCompiler.typeInitializerScheduler.scheduled)
           + (if IsTypeInitializer(compiledMethod) then [compiledMethod] else [])
      ensures events == old(events)
        + (if IsTypeInitializer(compiledMethod) then [ScheduledTypeInitializer(compiledMethod)] else [])
        + [BaseEndCompile]
    {
      if compiledMethod.attributes & TypeInitializerAttributes == TypeInitializerAttributes
        && compiledMethod.name == ".cctor"
      {
        var tiss := aotCompiler.typeInitializerScheduler;
        tiss.Schedule(compiledMethod);
        events := events + [ScheduledTypeInitializer(compiledMethod)];
      }
      events := events + [BaseEndCompile];
    }
  }
}
