/**
 * The working directory the controller saves its exports in, seen as a map
 * from file name to text. It outlives every request.
 */
module FileSystem {

  class FileStore {
    var files: map<string, string>

    /** The directory as it stands when the application starts. */
    constructor (initial: map<string, string>)
      ensures files == initial
    {
      files := initial;
    }

    /** Creating or overwriting a file: its whole content is replaced, no other file changes. */
    method WriteAll(name: string, content: string)
      modifies this
      ensures files == old(files)[name := content]
    {
      files := files[name := content];
    }

    /** `File.Exists` */
    method Exists(name: string) returns (b: bool)
      ensures b <==> name in files
    {
      b := name in files;
    }

    /** `File.ReadAllBytes` on a file that exists: its content, unaltered. */
    method ReadAll(name: string) returns (content: string)
      requires name in files
      ensures content == files[name]
    {
      content := files[name];
    }
  }
}
