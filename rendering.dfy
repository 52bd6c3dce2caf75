/**
 * The two rendering strategies of `process_audio` (Sanne/main.py): the local
 * matplotlib staff first, the Flat.io web API only when that fails, and no
 * picture when both fail. Both strategies are external; only whether each one
 * reports success enters the model.
 */
module Rendering {
  import opened Wrappers

  /** The file name the renderers write to. */
  const IMG_NAME: string := "staff_notation.png"

  /**
   * `os.path.join(tempfile.gettempdir(), 'staff_notation.png')` on a POSIX
   * system: a separator is inserted only when the directory is non-empty and
   * does not already end in `/`.
   */
  function ImgPath(tempDir: string): (path: string)
    ensures |tempDir| + |IMG_NAME| <= |path| <= |tempDir| + 1 + |IMG_NAME|
    ensures path[..|tempDir|] == tempDir
    ensures path[|path| - |IMG_NAME|..] == IMG_NAME
    ensures tempDir != "" && tempDir[|tempDir| - 1] != '/' ==> path[|tempDir|] == '/'
    ensures |path| == |tempDir| + |IMG_NAME| <==> (tempDir == "" || tempDir[|tempDir| - 1] == '/')
  {
    if tempDir == "" || tempDir[|tempDir| - 1] == '/' then tempDir + IMG_NAME
    else tempDir + "/" + IMG_NAME
  }

  /**
   * `render_with_webapi`: without an API key (`FLAT_IO_API_KEY` is empty) it
   * returns False before any request; otherwise its outcome is `flatOk`:
   * the create-score, download and delete requests went through without an
   * exception and the bytes written to `img_path` are a picture python-docx
   * can insert.
   */
  function RenderWithWebApi(apiKey: string, flatOk: bool): bool {
    if apiKey == "" then false else flatOk
  }

  /**
   * Which strategies ran and the `img_path` handed on to the document.
   * `pastKeyGuard` means `render_with_webapi` got past its empty-key check;
   * the MusicXML export and the Flat.io requests come after it and may still fail.
   */
  datatype Rendering = Rendering(webApiCalled: bool, pastKeyGuard: bool, imgPath: Option<string>)

  /** The fallback chain: `if not render_traditional_staff(...): if not render_with_webapi(...): img_path = None`. */
  function RenderFallback(traditionalOk: bool, apiKey: string, flatOk: bool, tempDir: string): (r: Rendering)
    ensures r.webApiCalled <==> !traditionalOk
    ensures r.pastKeyGuard <==> !traditionalOk && apiKey != ""
    ensures r.imgPath.None? <==> !traditionalOk && !RenderWithWebApi(apiKey, flatOk)
    ensures r.imgPath.Some? ==> r.imgPath.value == ImgPath(tempDir)
  {
    var path := ImgPath(tempDir);
    if traditionalOk then Rendering(false, false, Some(path))
    else if RenderWithWebApi(apiKey, flatOk) then Rendering(true, true, Some(path))
    else Rendering(true, apiKey != "", None)
  }

  /** A picture is available exactly when one of the two strategies succeeded; a missing key leaves only the first. */
  lemma PictureIffSomeStrategySucceeds(traditionalOk: bool, apiKey: string, flatOk: bool, tempDir: string)
    ensures RenderFallback(traditionalOk, apiKey, flatOk, tempDir).imgPath.Some? <==> traditionalOk || (apiKey != "" && flatOk)
    ensures apiKey == "" ==> (RenderFallback(traditionalOk, apiKey, flatOk, tempDir).imgPath.Some? <==> traditionalOk)
  {
  }
}
