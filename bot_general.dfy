/**
 * The `pixiv` command of the packaged bot (src/my_discord_bot/cogs/general.py): the same
 * link pattern as before, then gallery-dl is configured in-process (size limit, image
 * range, animation post-processor), the download job runs, and its status code is turned
 * into a reply.
 *
 * The download job is a parameter: its status code, whether its file exists and the
 * file's path.
 */
module BotGeneral {
  import opened Wrappers
  import PyText
  import General
  import CogBase

  datatype AnimationFormat = Webm | Gif

  /** A configuration value `pixiv` sets: a string, or the ugoira post-processor list. */
  datatype ConfigValue =
    | Text(text: string)
    | Ugoira(whitelist: seq<string>, extension: string, demuxer: string)

  /** A gallery-dl configuration path such as ("extractor", "pixiv"). */
  type Scope = seq<string>

  /** How the download job ended. */
  datatype Download = Download(status: int, fileExists: bool, path: string)

  /** What the command does towards the user, in order. */
  datatype Reply =
    | Respond(text: string)                  // ia.response.send_message
    | Defer                                  // ia.response.defer
    | Followup(text: string)                 // ia.followup.send
    | Upload(path: string, source: string)   // the embed with the downloaded file
    | LogError(text: string)

  const InvalidLinkMsg := "You link is invalid!"
  const FailedMsg := "Something went wrong."
  const RangeHint := " Maybe your image_number is out of range?"
  const LoginMsg := "Cannot login to Pixiv." + " Please notify the bot owner! \nTo the bot owner: Please find instructions in https://github.com/regunakyle/my-discord-bot#important-you-must-have-ffmepg-installed-and-setup-an-oauth-token-to-use-this-command"
  const PersistMsg := "Something went wrong. Please notify the bot owner if the error persists."

  /** The reply to status 4, naming the guild's upload limit in MiB. */
  function TooBigMsg(maxFileSize: nat): string {
    "Download failed." + " Most probably because your image is too big. (Maximum size: "
    + PyText.NatToString(maxFileSize) + "MiB)"
  }

  function ExtensionName(f: AnimationFormat): string {
    match f
    case Webm => "webm"
    case Gif => "gif"
  }

  /** What the status code of the download job comes to (lines 96-144). */
  function StatusReplies(d: Download, imageNumber: int, maxFileSize: nat, source: string): (replies: seq<Reply>)
    ensures d.status == 0 && !d.fileExists ==>
              replies == [Followup(FailedMsg + (if imageNumber > 1 then RangeHint else ""))]
    ensures d.status == 0 && d.fileExists ==> replies == [Upload(d.path, source)]
    ensures d.status !in {0, 4, 8, 16} ==>
              replies == [LogError("Gallery-DL failed. Status code: " + PyText.IntToString(d.status)), Followup(PersistMsg)]
    ensures d.status == 4 ==> replies == [Followup(TooBigMsg(maxFileSize))]
    ensures d.status == 8 ==> replies == [Followup(InvalidLinkMsg)]
    ensures d.status == 16 ==> replies == [Followup(LoginMsg)]
    ensures d.status != 0 ==> forall i :: 0 <= i < |replies| ==> !replies[i].Upload?
  {
    if d.status == 0 then
      if !d.fileExists then [Followup(FailedMsg + (if imageNumber > 1 then RangeHint else ""))]
      else [Upload(d.path, source)]
    else if d.status == 4 then
      [Followup(TooBigMsg(maxFileSize))]
    else if d.status == 8 then [Followup(InvalidLinkMsg)]
    else if d.status == 16 then [Followup(LoginMsg)]
    else [LogError("Gallery-DL failed. Status code: " + PyText.IntToString(d.status)), Followup(PersistMsg)]
  }

  /** The out-of-range hint is given exactly when an image beyond the first was asked for. */
  lemma RangeHintIffLaterImage(d: Download, imageNumber: int, maxFileSize: nat, source: string)
    requires d.status == 0 && !d.fileExists
    ensures (StatusReplies(d, imageNumber, maxFileSize, source) == [Followup(FailedMsg + RangeHint)])
            <==> imageNumber > 1
  {
    assert |FailedMsg + ""| < |FailedMsg + RangeHint|;
  }

  /** The four failure statuses give four different replies. */
  lemma FailureRepliesDiffer(path: string, imageNumber: int, maxFileSize: nat, source: string, other: int)
    requires other !in {0, 4, 8, 16}
    ensures var r4 := StatusReplies(Download(4, false, path), imageNumber, maxFileSize, source);
            var r8 := StatusReplies(Download(8, false, path), imageNumber, maxFileSize, source);
            var r16 := StatusReplies(Download(16, false, path), imageNumber, maxFileSize, source);
            var rx := StatusReplies(Download(other, false, path), imageNumber, maxFileSize, source);
            r4 != r8 && r4 != r16 && r8 != r16 && rx != r4 && rx != r8 && rx != r16
  {
    var r4 := StatusReplies(Download(4, false, path), imageNumber, maxFileSize, source);
    var r8 := StatusReplies(Download(8, false, path), imageNumber, maxFileSize, source);
    var r16 := StatusReplies(Download(16, false, path), imageNumber, maxFileSize, source);
    assert r4[0].text[0] == 'D' && r8[0].text[0] == 'Y' && r16[0].text[0] == 'C';
  }

  /** The settings after the four `config.set` calls of lines 65-91. */
  function Configured(settings: map<(Scope, string), ConfigValue>, imageNumber: int, format: AnimationFormat,
                      maxFileSize: nat, isLinux: bool): map<(Scope, string), ConfigValue> {
    settings[(["downloader"], "filesize-max") := Text(PyText.NatToString(maxFileSize) + "M")]
            [(["extractor"], "image-range") := Text(PyText.IntToString(imageNumber))]
            [(["extractor", "pixiv"], "image-range") := Text(PyText.IntToString(imageNumber))]
            [(["extractor"], "postprocessors") :=
               Ugoira(["pixiv"], ExtensionName(format), if isLinux then "image2" else "auto")]
  }

  /**
   * The image range is the requested number in both the generic and the Pixiv extractor
   * scopes, the size limit is the guild's maximum in MiB, and no other setting changes.
   */
  lemma ConfiguredSettings(settings: map<(Scope, string), ConfigValue>, imageNumber: int, format: AnimationFormat,
                           maxFileSize: nat, isLinux: bool)
    ensures var c := Configured(settings, imageNumber, format, maxFileSize, isLinux);
            && c[(["extractor"], "image-range")] == Text(PyText.IntToString(imageNumber))
            && c[(["extractor", "pixiv"], "image-range")] == Text(PyText.IntToString(imageNumber))
            && c[(["downloader"], "filesize-max")] == Text(PyText.NatToString(maxFileSize) + "M")
            && c.Keys == settings.Keys + {(["downloader"], "filesize-max"), (["extractor"], "image-range"),
                                         (["extractor", "pixiv"], "image-range"), (["extractor"], "postprocessors")}
            && forall k :: k in settings && k !in {(["downloader"], "filesize-max"), (["extractor"], "image-range"),
                                                (["extractor", "pixiv"], "image-range"), (["extractor"], "postprocessors")}
                 ==> c[k] == settings[k]
  {
    assert ["extractor"] != ["extractor", "pixiv"];
    assert ["extractor"] != ["downloader"];
  }

  /** gallery-dl's process-wide configuration. */
  class GalleryConfig {
    var settings: map<(Scope, string), ConfigValue>

    constructor ()
      ensures settings == map[]
    {
      settings := map[];
    }

    /** `config.set(scope, key, value)` */
    method Set(scope: Scope, key: string, value: ConfigValue)
      modifies this
      ensures settings == old(settings)[(scope, key) := value]
    {
      settings := settings[(scope, key) := value];
    }
  }

  /**
   * `pixiv`: a rejected link gets the invalid-link reply and changes no setting; an
   * accepted one configures gallery-dl, downloads the matched link and replies by status.
   */
  method Pixiv(config: GalleryConfig, pixivLink: string, imageNumber: int, format: AnimationFormat,
               guild: CogBase.Guild, env: map<string, string>, isLinux: bool, download: Download)
    returns (replies: seq<Reply>, downloaded: Option<string>)
    modifies config
    ensures General.PixivLink(pixivLink).None? ==>
              replies == [Respond(InvalidLinkMsg)] && downloaded.None? && config.settings == old(config.settings)
    ensures General.PixivLink(pixivLink).Some? ==>
              var maxFileSize := CogBase.GetMaxFileSize(Some(guild), env);
              && downloaded == General.PixivLink(pixivLink)
              && config.settings == Configured(old(config.settings), imageNumber, format, maxFileSize, isLinux)
              && replies == [Defer] + StatusReplies(download, imageNumber, maxFileSize, pixivLink)
  {
    var link := General.PixivLink(pixivLink);
    if link.None? {
      return [Respond(InvalidLinkMsg)], None;
    }
    replies := [Defer];
    var maxFileSize := CogBase.GetMaxFileSize(Some(guild), env);
    config.Set(["downloader"], "filesize-max", Text(PyText.NatToString(maxFileSize) + "M"));
    config.Set(["extractor"], "image-range", Text(PyText.IntToString(imageNumber)));
    config.Set(["extractor", "pixiv"], "image-range", Text(PyText.IntToString(imageNumber)));
    config.Set(["extractor"], "postprocessors",
               Ugoira(["pixiv"], ExtensionName(format), if isLinux then "image2" else "auto"));
    downloaded := link;
    replies := replies + StatusReplies(download, imageNumber, maxFileSize, pixivLink);
  }
}
