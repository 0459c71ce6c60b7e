/** The config.yaml of a profile: its text, empty when the file is missing, replaced as a whole. */
module ConfigFiles {
  class ConfigFile {
    var content: string

    constructor (text: string)
      ensures content == text
    {
      content := text;
    }
  }
}
