/**
 * GetVertexShaderPath and GetFragmentShaderPath of
 * src/load-utils/load_utils.cpp: the shading option picks one of three
 * shader directories, and the file name inside it is fixed.
 */
module ShaderPaths {
  import opened Attributes

  /**
   * The three shader directories, fixed at build time. They are a parameter
   * here because their values are injected by the build, not written in the
   * source.
   */
  datatype ShaderDirs = ShaderDirs(perVertex: string, normalMapping: string, flat: string)

  const VertexFile: string := "/vertex.glsl"
  const FragmentFile: string := "/fragment.glsl"

  /** The directory whose shaders render the given option; wireframe reuses the flat shaders. */
  function ShaderDir(dirs: ShaderDirs, opt: ShadingOption): string {
    match opt
    case PerVertex => dirs.perVertex
    case NormalMapping => dirs.normalMapping
    case Flat => dirs.flat
    case Wireframe => dirs.flat
  }

  /** The vertex shader's path: the option's directory followed by `/vertex.glsl`. */
  function VertexShaderPath(dirs: ShaderDirs, opt: ShadingOption): (path: string)
    ensures |path| == |ShaderDir(dirs, opt)| + |VertexFile|
    ensures path[..|ShaderDir(dirs, opt)|] == ShaderDir(dirs, opt)
    ensures path[|ShaderDir(dirs, opt)|..] == VertexFile
  {
    if opt == PerVertex then dirs.perVertex + VertexFile
    else if opt == NormalMapping then dirs.normalMapping + VertexFile
    else dirs.flat + VertexFile
  }

  /** The fragment shader's path: the option's directory followed by `/fragment.glsl`. */
  function FragmentShaderPath(dirs: ShaderDirs, opt: ShadingOption): (path: string)
    ensures |path| == |ShaderDir(dirs, opt)| + |FragmentFile|
    ensures path[..|ShaderDir(dirs, opt)|] == ShaderDir(dirs, opt)
    ensures path[|ShaderDir(dirs, opt)|..] == FragmentFile
  {
    if opt == PerVertex then dirs.perVertex + FragmentFile
    else if opt == NormalMapping then dirs.normalMapping + FragmentFile
    else dirs.flat + FragmentFile
  }

  /** Removing the file name from either path gives back the directory. */
  lemma DirectoryRecovered(dirs: ShaderDirs, opt: ShadingOption)
    ensures VertexShaderPath(dirs, opt)[..|VertexShaderPath(dirs, opt)| - |VertexFile|] == ShaderDir(dirs, opt)
    ensures FragmentShaderPath(dirs, opt)[..|FragmentShaderPath(dirs, opt)| - |FragmentFile|] == ShaderDir(dirs, opt)
  {
  }

  /** Wireframe mode draws with the flat shaders. */
  lemma WireframeSharesFlatShaders(dirs: ShaderDirs)
    ensures VertexShaderPath(dirs, Wireframe) == VertexShaderPath(dirs, Flat)
    ensures FragmentShaderPath(dirs, Wireframe) == FragmentShaderPath(dirs, Flat)
  {
  }

  /** A vertex shader path never equals a fragment shader path: the file names differ. */
  lemma VertexAndFragmentDiffer(dirs: ShaderDirs, o1: ShadingOption, o2: ShadingOption)
    ensures VertexShaderPath(dirs, o1) != FragmentShaderPath(dirs, o2)
  {
    // the sixth character from the end is the last letter of the file's stem
    var v, f := VertexShaderPath(dirs, o1), FragmentShaderPath(dirs, o2);
    assert v[|v| - 6] == VertexFile[|VertexFile| - 6] == 'x';
    assert f[|f| - 6] == FragmentFile[|FragmentFile| - 6] == 't';
  }

  /** Equal suffixes cancel. */
  lemma SuffixCancels(s: string, t: string, suffix: string)
    requires s + suffix == t + suffix
    ensures s == t
  {
    assert s == (s + suffix)[..|s|];
    assert t == (t + suffix)[..|t|];
  }

  /**
   * With three distinct directories, two options get the same shaders
   * exactly when they are the same option or are flat and wireframe.
   */
  lemma SameShadersIff(dirs: ShaderDirs, o1: ShadingOption, o2: ShadingOption)
    requires dirs.perVertex != dirs.normalMapping && dirs.perVertex != dirs.flat && dirs.normalMapping != dirs.flat
    ensures VertexShaderPath(dirs, o1) == VertexShaderPath(dirs, o2)
        <==> o1 == o2 || (UsesFaceNormal(o1) && UsesFaceNormal(o2))
    ensures FragmentShaderPath(dirs, o1) == FragmentShaderPath(dirs, o2)
        <==> o1 == o2 || (UsesFaceNormal(o1) && UsesFaceNormal(o2))
  {
    if VertexShaderPath(dirs, o1) == VertexShaderPath(dirs, o2) {
      SuffixCancels(ShaderDir(dirs, o1), ShaderDir(dirs, o2), VertexFile);
    }
    if FragmentShaderPath(dirs, o1) == FragmentShaderPath(dirs, o2) {
      SuffixCancels(ShaderDir(dirs, o1), ShaderDir(dirs, o2), FragmentFile);
    }
  }
}
