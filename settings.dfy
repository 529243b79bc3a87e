/** The importer's user settings that change what a payload import yields. */
module ImportSettings {

  datatype Settings = Settings(
    /** Import meshes of every level of detail, not only the best one. */
    alsoImportLODs: bool,
    /** The weight table to bind with; 0 (or out of range) means the first. */
    weightTableOverride: int,
    /** Prefix every texture name with the payload's file name. */
    differentiateTextures: bool,
    /** Split the channels of textures whose name starts with "temp". */
    splitTemps: bool,
    /** Decode every resolution of an uncached texture, not only the best. */
    keepAllResolutions: bool,
    /** Decode the uncached (streamed) textures at all. */
    importUncachedTextures: bool,
    /** Passed through to the texture decoder. */
    blueBC5: bool)
}
