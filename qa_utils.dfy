/** The VOLK kernel test descriptors: the immutable parameter record
    `volk_test_params_t`, the test case record `volk_test_case_t` with its
    ordinary and puppet constructors, and the argument lists that the
    `run_volk_tests` defaults and the `VOLK_RUN_TESTS`, `VOLK_PROFILE` and
    `VOLK_PUPPET_PROFILE` macros hand to the test harness. The harness
    itself is declared without a body and is not part of this model; a
    call to it is represented by the arguments it receives. */
module VolkQaUtils {
  import opened UInt32

  /** A C++ `float`, carried as a value that is only stored and returned. */
  type Float32 = real

  /** `lv_32fc_t`, a complex of two floats. */
  datatype Complex32 = Complex32(re: Float32, im: Float32)

  /** `volk_func_desc_t`, the kernel's table of implementations; its layout
      is defined outside the modelled header, so it is an opaque handle. */
  datatype FuncDesc = FuncDesc(handle: nat)

  /** A kernel function pointer `void (*)()`. */
  datatype KernelPtr = KernelPtr(address: nat)

  /** A `std::vector<volk_test_results_t> *`: `NULL` or a collector. */
  datatype ResultsSink = NullResults | Collector(address: nat)

  /** The puppet master name meaning "no master". */
  const NO_MASTER: string := "NULL"

  // ---------------------------------------------------------------------
  // volk_test_params_t
  // ---------------------------------------------------------------------

  /** The private fields of `volk_test_params_t`; the getters `tol()`,
      `scalar()`, `vlen()`, `iter()`, `benchmark_mode()` and
      `kernel_regex()` are the field selectors. */
  datatype TestParams = TestParams(
    tol: Float32,
    scalar: Complex32,
    vlen: U32,
    iter: U32,
    benchmarkMode: bool,
    kernelRegex: string)

  /** The constructor stores every argument, and each getter returns the
      argument it was given. */
  lemma TestParamsGetters(tol: Float32, scalar: Complex32, vlen: U32, iter: U32,
                          benchmarkMode: bool, kernelRegex: string)
    ensures var p := TestParams(tol, scalar, vlen, iter, benchmarkMode, kernelRegex);
      p.tol == tol && p.scalar == scalar && p.vlen == vlen && p.iter == iter &&
      p.benchmarkMode == benchmarkMode && p.kernelRegex == kernelRegex
  {
  }

  // ---------------------------------------------------------------------
  // volk_test_case_t
  // ---------------------------------------------------------------------

  /** The private fields of `volk_test_case_t`; the getters `desc()`,
      `kernel_ptr()`, `name()`, `puppet_master_name()` and
      `test_parameters()` are the field selectors. */
  datatype TestCase = TestCase(
    desc: FuncDesc,
    kernelPtr: KernelPtr,
    name: string,
    testParameters: TestParams,
    puppetMasterName: string)

  /** The ordinary constructor: no puppet master, recorded as `"NULL"`. */
  function NewTestCase(desc: FuncDesc, kernelPtr: KernelPtr, name: string,
                       testParameters: TestParams): (c: TestCase)
    ensures c.puppetMasterName == NO_MASTER
    ensures c.desc == desc && c.kernelPtr == kernelPtr && c.name == name
    ensures c.testParameters == testParameters
  {
    TestCase(desc, kernelPtr, name, testParameters, "NULL")
  }

  /** The puppet constructor; note its argument order, with the master's
      name before the parameters. */
  function NewPuppetTestCase(desc: FuncDesc, kernelPtr: KernelPtr, name: string,
                             puppetMasterName: string, testParameters: TestParams): (c: TestCase)
    ensures c.puppetMasterName == puppetMasterName
    ensures c.desc == desc && c.kernelPtr == kernelPtr && c.name == name
    ensures c.testParameters == testParameters
  {
    TestCase(desc, kernelPtr, name, testParameters, puppetMasterName)
  }

  /** The two constructors differ in the puppet master's name and nothing
      else; a puppet whose master is called "NULL" is indistinguishable
      from an ordinary test case. */
  lemma PuppetDiffersOnlyInMaster(desc: FuncDesc, kernelPtr: KernelPtr, name: string,
                                  master: string, params: TestParams)
    ensures NewPuppetTestCase(desc, kernelPtr, name, master, params)
            == NewTestCase(desc, kernelPtr, name, params).(puppetMasterName := master)
    ensures (NewPuppetTestCase(desc, kernelPtr, name, master, params)
             == NewTestCase(desc, kernelPtr, name, params)) <==> master == NO_MASTER
  {
  }

  // ---------------------------------------------------------------------
  // run_volk_tests: the two overloads and their default arguments
  // ---------------------------------------------------------------------

  /** The arguments one call of `run_volk_tests` receives, per overload. */
  datatype HarnessCall =
    | ParamsRun(desc: FuncDesc, kernelPtr: KernelPtr, name: string, params: TestParams,
                results: ResultsSink, puppetMasterName: string)
    | ScalarRun(desc: FuncDesc, kernelPtr: KernelPtr, name: string, tol: Float32,
                scalar: Complex32, vlen: U32, iter: U32, results: ResultsSink,
                puppetMasterName: string, benchmarkMode: bool)

  /** The overload that takes a ready-made parameter record; `results`
      defaults to `NULL` and the master's name to `"NULL"`. */
  function RunVolkTests(desc: FuncDesc, kernelPtr: KernelPtr, name: string, params: TestParams,
                        results: ResultsSink := NullResults,
                        puppetMasterName: string := "NULL"): (c: HarnessCall)
    ensures c.ParamsRun? && c.desc == desc && c.kernelPtr == kernelPtr && c.name == name
    ensures c.params == params && c.results == results && c.puppetMasterName == puppetMasterName
  {
    ParamsRun(desc, kernelPtr, name, params, results, puppetMasterName)
  }

  /** The overload that takes the parameters one by one; `results`
      defaults to `NULL`, the master's name to `"NULL"` and
      `benchmark_mode` to false. */
  function RunVolkTestsScalar(desc: FuncDesc, kernelPtr: KernelPtr, name: string,
                              tol: Float32, scalar: Complex32, vlen: U32, iter: U32,
                              results: ResultsSink := NullResults,
                              puppetMasterName: string := "NULL",
                              benchmarkMode: bool := false): (c: HarnessCall)
    ensures c.ScalarRun? && c.desc == desc && c.kernelPtr == kernelPtr && c.name == name
    ensures c.tol == tol && c.scalar == scalar && c.vlen == vlen && c.iter == iter
    ensures c.results == results && c.puppetMasterName == puppetMasterName
    ensures c.benchmarkMode == benchmarkMode
  {
    ScalarRun(desc, kernelPtr, name, tol, scalar, vlen, iter, results, puppetMasterName, benchmarkMode)
  }

  /** Leaving the trailing arguments out passes no collector, no master
      and, for the scalar overload, no benchmark mode. */
  lemma RunVolkTestsDefaults(desc: FuncDesc, kernelPtr: KernelPtr, name: string, params: TestParams,
                             tol: Float32, scalar: Complex32, vlen: U32, iter: U32)
    ensures RunVolkTests(desc, kernelPtr, name, params).results == NullResults
    ensures RunVolkTests(desc, kernelPtr, name, params).puppetMasterName == NO_MASTER
    ensures RunVolkTestsScalar(desc, kernelPtr, name, tol, scalar, vlen, iter).results == NullResults
    ensures RunVolkTestsScalar(desc, kernelPtr, name, tol, scalar, vlen, iter).puppetMasterName == NO_MASTER
    ensures !RunVolkTestsScalar(desc, kernelPtr, name, tol, scalar, vlen, iter).benchmarkMode
  {
  }

  // ---------------------------------------------------------------------
  // The macros
  // ---------------------------------------------------------------------

  /** What the preprocessor derives from a kernel identifier `func`: the
      string `#func`, the descriptor `func##_get_func_desc()` and the entry
      point `func##_manual`. */
  datatype Kernel = Kernel(name: string, desc: FuncDesc, manual: KernelPtr)

  /** A Boost test case named `func##_test` that checks a harness call. */
  datatype BoostTestCase = BoostTestCase(testName: string, call: HarnessCall)

  /** `VOLK_RUN_TESTS(func, tol, scalar, len, iter)`: a Boost test case
      calling the scalar overload with a null collector and no master. */
  function VolkRunTests(func: Kernel, tol: Float32, scalar: Complex32, len: U32, iter: U32): (t: BoostTestCase)
    ensures t.testName == func.name + "_test"
    ensures t.call == RunVolkTestsScalar(func.desc, func.manual, func.name, tol, scalar, len, iter)
  {
    BoostTestCase(func.name + "_test",
      RunVolkTestsScalar(func.desc, func.manual, func.name, tol, scalar, len, iter, NullResults, "NULL"))
  }

  /** `BOOST_CHECK_EQUAL(run_volk_tests(...), 0)`: the test case passes
      when the harness returns false, i.e. zero. */
  function VolkRunTestsPasses(harnessResult: bool): (passes: bool)
    ensures passes <==> !harnessResult
  {
    (if harnessResult then 1 else 0) == 0
  }

  /** `VOLK_PROFILE(func, test_params, results)`. */
  function VolkProfile(func: Kernel, testParams: TestParams, results: ResultsSink): (c: HarnessCall)
    ensures c == RunVolkTests(func.desc, func.manual, func.name, testParams, results)
    ensures c.puppetMasterName == NO_MASTER
  {
    RunVolkTests(func.desc, func.manual, func.name, testParams, results, "NULL")
  }

  /** `VOLK_PUPPET_PROFILE(func, puppet_master_func, test_params, results)`:
      the puppet's own name is the test name, the master's is passed on. */
  function VolkPuppetProfile(func: Kernel, puppetMasterFunc: Kernel, testParams: TestParams,
                             results: ResultsSink): (c: HarnessCall)
    ensures c.ParamsRun? && c.name == func.name && c.desc == func.desc && c.kernelPtr == func.manual
    ensures c.puppetMasterName == puppetMasterFunc.name
    ensures c.params == testParams && c.results == results
  {
    RunVolkTests(func.desc, func.manual, func.name, testParams, results, puppetMasterFunc.name)
  }

  /** A puppet profile call differs from the plain profile call of the
      same kernel only in the master's name. */
  lemma PuppetProfileDiffersOnlyInMaster(func: Kernel, master: Kernel, testParams: TestParams,
                                         results: ResultsSink)
    ensures VolkPuppetProfile(func, master, testParams, results)
            == RunVolkTests(func.desc, func.manual, func.name, testParams, results, master.name)
    ensures VolkProfile(func, testParams, results)
            == RunVolkTests(func.desc, func.manual, func.name, testParams, results, NO_MASTER)
    ensures (VolkPuppetProfile(func, master, testParams, results)
             == VolkProfile(func, testParams, results)) <==> master.name == NO_MASTER
  {
  }
}
