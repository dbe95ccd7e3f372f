/** The libraries `llvmBrowser` compiles, in build.py's order. */
module BrowserTargets {
  /** The i-th entry of the list. */
  function BrowserTarget(i: nat): string
    requires i < 50
  {
    match i
    case 0 => "clangAnalysis"
    case 1 => "clangAST"
    case 2 => "clangBasic"
    case 3 => "clangCodeGen"
    case 4 => "clangDriver"
    case 5 => "clangEdit"
    case 6 => "clangFormat"
    case 7 => "clangFrontend"
    case 8 => "clangLex"
    case 9 => "clangParse"
    case 10 => "clangRewrite"
    case 11 => "clangSema"
    case 12 => "clangSerialization"
    case 13 => "clangToolingCore"
    case 14 => "LLVMAnalysis"
    case 15 => "LLVMAsmParser"
    case 16 => "LLVMAsmPrinter"
    case 17 => "LLVMBinaryFormat"
    case 18 => "LLVMBitReader"
    case 19 => "LLVMBitWriter"
    case 20 => "LLVMCodeGen"
    case 21 => "LLVMCore"
    case 22 => "LLVMCoroutines"
    case 23 => "LLVMCoverage"
    case 24 => "LLVMDebugInfoCodeView"
    case 25 => "LLVMGlobalISel"
    case 26 => "LLVMInstCombine"
    case 27 => "LLVMInstrumentation"
    case 28 => "LLVMipo"
    case 29 => "LLVMIRReader"
    case 30 => "LLVMLinker"
    case 31 => "LLVMLTO"
    case 32 => "LLVMMC"
    case 33 => "LLVMMCDisassembler"
    case 34 => "LLVMMCParser"
    case 35 => "LLVMObjCARCOpts"
    case 36 => "LLVMObject"
    case 37 => "LLVMOption"
    case 38 => "LLVMPasses"
    case 39 => "LLVMProfileData"
    case 40 => "LLVMScalarOpts"
    case 41 => "LLVMSelectionDAG"
    case 42 => "LLVMSupport"
    case 43 => "LLVMTarget"
    case 44 => "LLVMTransformUtils"
    case 45 => "LLVMVectorize"
    case 46 => "LLVMWebAssemblyAsmPrinter"
    case 47 => "LLVMWebAssemblyCodeGen"
    case 48 => "LLVMWebAssemblyDesc"
    case _ => "LLVMWebAssemblyInfo"
  }

  function LlvmBrowserTargets(): seq<string> {
    seq(50, i requires 0 <= i < 50 => BrowserTarget(i))
  }
}
