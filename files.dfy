/**
 * The part of the file system the transcript logger touches: text files by
 * name. Writes always succeed in this model.
 */
module Files {

  /** What reading a file gives; a file that does not exist reads as empty. */
  function ContentOf(files: map<string, string>, name: string): string {
    if name in files then files[name] else ""
  }

  class Disk {
    var files: map<string, string>

    constructor (files: map<string, string>)
      ensures this.files == files
    {
      this.files := files;
    }

    /**
     * `open(name, "w")`: creates the file, or truncates it when it exists.
     */
    method Truncate(name: string)
      modifies this
      ensures files == old(files)[name := ""]
    {
      files := files[name := ""];
    }

    /**
     * One `write(text)` at the end of the file: through a handle from
     * `open(name, "a")`, which creates a missing file, or through one that has
     * only written so far.
     */
    method Append(name: string, text: string)
      modifies this
      ensures files == old(files)[name := ContentOf(old(files), name) + text]
      ensures ContentOf(old(files), name) <= files[name]
    {
      files := files[name := ContentOf(files, name) + text];
    }
  }
}
