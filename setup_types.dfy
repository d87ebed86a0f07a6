/**
 * What the setup wizard knows of a setup module (src/setup/setup.types.ts):
 * its key, which also prefixes its component ids, and how it is listed in the
 * main menu.
 */
module SetupTypes {
  import opened Common

  datatype SetupModule = SetupModule(key: string, menuLabel: string, description: string, emoji: Option<string>)
}
