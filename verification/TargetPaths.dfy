/** Where a song is stored, and the path rebuilt from its row in the data base. */
module TargetPaths {
  import opened Filenames

  /** A cleaned absolute path is the list of its elements. */
  type Path = seq<string>

  /** filepath.Join for elements without a separator inside. */
  function Join(base: Path, names: seq<string>): Path
    decreases |names|
  {
    if names == [] then base
    else if names[0] == "" || names[0] == "." then Join(base, names[1..])
    else if names[0] == ".." then Join(if base == [] then [] else base[..|base| - 1], names[1..])
    else Join(base + [names[0]], names[1..])
  }

  function TargetPath(exeDir: Path, channelTitle: string, title: string): Path {
    Join(exeDir, ["db", Sanitize(channelTitle), Sanitize(title) + ".pcm"])
  }

  /** The part of a channel name that reaches the path: "." stands for no folder at all. */
  function Folder(channelTitle: string): string {
    if Sanitize(channelTitle) == "." then "" else Sanitize(channelTitle)
  }

  lemma JoinOne(base: Path, file: string)
    requires file != "" && file != "." && file != ".."
    ensures Join(base, [file]) == base + [file]
  {
    var none: seq<string> := [file][1..];
    assert Join(base + [file], none) == base + [file];
  }

  lemma PathElements(exeDir: Path, channelTitle: string, title: string)
    ensures var file := Sanitize(title) + ".pcm"; var folder := Folder(channelTitle);
            TargetPath(exeDir, channelTitle, title) ==
            if folder == "" then exeDir + ["db"] + [file]
            else if folder == ".." then exeDir + [file]
            else exeDir + ["db"] + [folder] + [file]
  {
    var folder, file := Sanitize(channelTitle), Sanitize(title) + ".pcm";
    assert |file| >= 4 && file[|file| - 1] == 'm';
    var names: seq<string> := ["db", folder, file];
    assert names[1..] == [folder, file] && [folder, file][1..] == [file];
    assert Join(exeDir, names) == Join(exeDir + ["db"], [folder, file]);
    assert (exeDir + ["db"])[..|exeDir|] == exeDir;
    JoinOne(exeDir, file);
    JoinOne(exeDir + ["db"], file);
    JoinOne(exeDir + ["db"] + [folder], file);
  }

  /** Two songs share a file exactly when their names differ in nothing that the path keeps. */
  lemma SamePathExactly(exeDir: Path, channel1: string, title1: string, channel2: string, title2: string)
    ensures TargetPath(exeDir, channel1, title1) == TargetPath(exeDir, channel2, title2)
       <==> Folder(channel1) == Folder(channel2) && Sanitize(title1) == Sanitize(title2)
  {
    PathElements(exeDir, channel1, title1);
    PathElements(exeDir, channel2, title2);
    var p1, p2 := TargetPath(exeDir, channel1, title1), TargetPath(exeDir, channel2, title2);
    var file1, file2 := Sanitize(title1) + ".pcm", Sanitize(title2) + ".pcm";
    if p1 == p2 {
      assert p1[|p1| - 1] == file1 && p2[|p2| - 1] == file2;
      assert file1[..|file1| - 4] == Sanitize(title1) && file2[..|file2| - 4] == Sanitize(title2);
      assert |p1| == |exeDir| + 3 ==> p1[|exeDir| + 1] == Folder(channel1) && p2[|exeDir| + 1] == Folder(channel2);
    }
  }

  datatype Row = Row(title: string, channel: string)

  /** The names the program works with: the API's, unescaped once. */
  function Fetched(unescape: string -> string, title: string, channel: string): Row {
    Row(unescape(title), unescape(channel))
  }

  /** saveToDB unescapes what it is given once more. */
  function Saved(unescape: string -> string, song: Row): Row {
    Row(unescape(song.title), unescape(song.channel))
  }

  /** The path GetRandom rebuilds from the row is the path the song was downloaded to exactly when the
      second unescaping changes nothing that the path keeps. */
  lemma RebuiltExactly(exeDir: Path, unescape: string -> string, title: string, channel: string)
    ensures var song := Fetched(unescape, title, channel);
            var row := Saved(unescape, song);
            && (TargetPath(exeDir, row.channel, row.title) == TargetPath(exeDir, song.channel, song.title)
                <==> Folder(unescape(song.channel)) == Folder(song.channel)
                     && Sanitize(unescape(song.title)) == Sanitize(song.title))
            && (row == song ==>
                TargetPath(exeDir, row.channel, row.title) == TargetPath(exeDir, song.channel, song.title))
  {
    var song := Fetched(unescape, title, channel);
    var row := Saved(unescape, song);
    SamePathExactly(exeDir, row.channel, row.title, song.channel, song.title);
  }

  lemma EntityKept()
    ensures Sanitize("&") == "&" && Sanitize("&amp;") == "&amp;"
  {
    FixedExactly("&");
    FixedExactly("&amp;");
    hide Sanitize;
  }

  /** A title with an entity inside an entity is looked for where it was not stored. */
  lemma DoubleEntityIsLost(exeDir: Path, unescape: string -> string, channel: string)
    requires unescape("&amp;amp;") == "&amp;" && unescape("&amp;") == "&"
    ensures var song := Fetched(unescape, "&amp;amp;", channel);
            var row := Saved(unescape, song);
            TargetPath(exeDir, row.channel, row.title) != TargetPath(exeDir, song.channel, song.title)
  {
    RebuiltExactly(exeDir, unescape, "&amp;amp;", channel);
    hide Sanitize, TargetPath, Folder;
    EntityKept();
  }
}
