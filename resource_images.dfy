/**
 * `ResourceImageLoader`: turning a `res://` path into the names it is looked up under, and the
 * order in which the image sources are tried. Loading itself is outside the model: `env` says,
 * for each source, whether loading from it succeeds, finds nothing, or throws.
 */
module ResourceImages {
  import opened Wrappers
  import opened Text

  const ResPrefix: string := "res://"
  const PackPrefix: string := "pack://"
  const AssemblyPrefix: string := "EOSK."
  const ComponentUri: string := "pack://application:,,,/EOSK;component/"
  const IconsComponentUri: string := "pack://application:,,,/EOSK;component/Icons/"

  /** Why `LoadImageFromResource` throws `ArgumentException`. */
  datatype ArgumentError = NullOrEmptyPath | NotResourcePath

  /** Where an image can be loaded from. */
  datatype ImageSource =
    | EmbeddedResource(name: string)     // `Assembly.GetManifestResourceStream(name)`
    | AbsoluteUri(uri: string)           // `new BitmapImage(new Uri(uri))`
    | RelativeOrAbsoluteUri(uri: string) // `new Uri(uri, UriKind.RelativeOrAbsolute)`

  /** What trying one source gives: an image, no stream (`null`), or an exception. */
  datatype Attempt = Loaded | NotFound | Threw

  /** A `BitmapImage`: the empty one returned when nothing loads, or one loaded from a source. */
  datatype Image = EmptyBitmap | Bitmap(source: ImageSource)

  /** The validation at the top of `LoadImageFromResource`; on success, the path without `res://`. */
  function ValidateResourcePath(path: Option<string>): (r: Result<string, ArgumentError>)
    ensures r == Failure(NullOrEmptyPath) <==> IsNullOrEmpty(path)
    ensures r == Failure(NotResourcePath) <==> !IsNullOrEmpty(path) && !StartsWithIgnoreCase(path.value, ResPrefix)
    ensures r.Success? ==> |r.value| == |path.value| - |ResPrefix| && path.value == path.value[..6] + r.value
  {
    if IsNullOrEmpty(path) then Failure(NullOrEmptyPath)
    else if !StartsWithIgnoreCase(path.value, ResPrefix) then Failure(NotResourcePath)
    else Success(path.value[6..])
  }

  /** The manifest resource name: `EOSK.` and the path with every `/` and `\` turned into `.`. */
  function EmbeddedResourceName(name: string): (full: string)
    ensures |full| == |name| + |AssemblyPrefix| && full[..5] == AssemblyPrefix
    ensures '/' !in full && '\\' !in full
    ensures forall i :: 0 <= i < |name| ==>
              full[i + 5] == if name[i] == '/' || name[i] == '\\' then '.' else name[i]
  {
    var dotted := Replace(Replace(name, '/', '.'), '\\', '.');
    assert forall i :: 0 <= i < |dotted| ==> dotted[i] != '/' && dotted[i] != '\\';
    AssemblyPrefix + dotted
  }

  /** The sources `LoadImageFromResource` tries for a resource name, in order. */
  function Candidates(name: string): (cs: seq<ImageSource>)
    ensures |cs| == 3
    ensures cs[0] == EmbeddedResource(EmbeddedResourceName(name))
    ensures cs[1] == AbsoluteUri(ComponentUri + name)
    ensures cs[2] == AbsoluteUri(IconsComponentUri + name)
  {
    [EmbeddedResource(EmbeddedResourceName(name)), AbsoluteUri(ComponentUri + name), AbsoluteUri(IconsComponentUri + name)]
  }

  /** The image from the first source that loads, or the empty image when none does. */
  function FirstLoaded(cs: seq<ImageSource>, env: ImageSource -> Attempt): (img: Image)
    ensures img.Bitmap? ==> exists k :: 0 <= k < |cs| && img.source == cs[k] && env(cs[k]) == Loaded
                                        && forall j :: 0 <= j < k ==> env(cs[j]) != Loaded
    ensures img == EmptyBitmap <==> forall j :: 0 <= j < |cs| ==> env(cs[j]) != Loaded
  {
    if cs == [] then EmptyBitmap
    else if env(cs[0]) == Loaded then Bitmap(cs[0])
    else
      var rest := FirstLoaded(cs[1..], env);
      assert forall j :: 1 <= j < |cs| ==> cs[j] == cs[1..][j - 1];
      if rest.Bitmap? then
        var k :| 0 <= k < |cs[1..]| && rest.source == cs[1..][k] && env(cs[1..][k]) == Loaded
                 && forall j :: 0 <= j < k ==> env(cs[1..][j]) != Loaded;
        assert rest.source == cs[k + 1] && env(cs[k + 1]) == Loaded;
        assert forall j :: 0 <= j < k + 1 ==> env(cs[j]) != Loaded;
        rest
      else
        rest
  }

  /**
   * `LoadImageFromResource`: validate the path, then try the embedded resource, the pack URI and the
   * pack URI under `Icons/`, returning the first image that loads; every load error is swallowed.
   */
  method LoadImageFromResource(path: Option<string>, env: ImageSource -> Attempt)
    returns (r: Result<Image, ArgumentError>)
    ensures ValidateResourcePath(path).Failure? ==> r == Failure(ValidateResourcePath(path).error)
    ensures ValidateResourcePath(path).Success? ==>
              r == Success(FirstLoaded(Candidates(ValidateResourcePath(path).value), env))
  {
    if IsNullOrEmpty(path) {
      return Failure(NullOrEmptyPath);
    }
    if !StartsWithIgnoreCase(path.value, ResPrefix) {
      return Failure(NotResourcePath);
    }
    var resourceName := path.value[6..];
    var embedded := EmbeddedResource(AssemblyPrefix + Replace(Replace(resourceName, '/', '.'), '\\', '.'));
    if env(embedded) == Loaded {
      return Success(Bitmap(embedded));
    }
    var packUri := AbsoluteUri(ComponentUri + resourceName);
    if env(packUri) == Loaded {
      return Success(Bitmap(packUri));
    }
    var iconsPackUri := AbsoluteUri(IconsComponentUri + resourceName);
    if env(iconsPackUri) == Loaded {
      return Success(Bitmap(iconsPackUri));
    }
    return Success(EmptyBitmap);
  }

  /** Case is ignored in the prefix: `RES://a.png` names the same resource as `res://a.png`. */
  lemma PrefixCaseIgnored(name: string)
    ensures ValidateResourcePath(Some("RES://" + name)) == Success(name)
    ensures ValidateResourcePath(Some("Res://" + name)) == Success(name)
  {
    assert ("RES://" + name)[6..] == name;
    assert ("Res://" + name)[6..] == name;
  }
}
